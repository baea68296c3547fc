/**
 * The access-log middleware of internal/middleware/logger.go: what it
 * records about a request once the handler chain has run, and at which
 * severity. `Logger` and `LoggerWithSlog` differ only in the logger the
 * record goes to.
 */
module Middleware {
  import opened Wrappers

  // ---------------------------------------------------------------------------
  // Severity
  // ---------------------------------------------------------------------------

  /** The slog levels the middleware can log at. */
  datatype Level = Debug | Info | Warn | Error

  /** The numeric value slog gives each level. */
  function Rank(l: Level): int
  {
    match l
    case Debug => -4
    case Info => 0
    case Warn => 4
    case Error => 8
  }

  datatype Severity = Severity(level: Level, message: string)

  /** The status switch: each threshold band gets its own level and message. */
  function Classify(status: int): (r: Severity)
    ensures r.level == Error <==> status >= 500
    ensures r.level == Warn <==> 400 <= status < 500
    ensures r.level == Info <==> status < 400
    ensures r.level != Debug
    ensures r.message == "Server error" <==> status >= 500
    ensures r.message == "Client error" <==> 400 <= status < 500
    ensures r.message == "Redirect" <==> 300 <= status < 400
    ensures r.message == "Request completed" <==> status < 300
  {
    if status >= 500 then Severity(Error, "Server error")
    else if status >= 400 then Severity(Warn, "Client error")
    else if status >= 300 then Severity(Info, "Redirect")
    else Severity(Info, "Request completed")
  }

  /** A higher status is never logged at a lower level. */
  lemma ClassifyMonotone(s1: int, s2: int)
    requires s1 <= s2
    ensures Rank(Classify(s1).level) <= Rank(Classify(s2).level)
  {
  }

  // ---------------------------------------------------------------------------
  // The field list
  // ---------------------------------------------------------------------------

  /** A logged value: the middleware logs strings and integers. */
  datatype Value = Str(s: string) | Int(n: int)

  /** One key/value pair, as two consecutive arguments of the variadic log call. */
  function Pair(key: string, v: Value): seq<Value>
  {
    [Str(key), v]
  }

  /** What the middleware has read about a request by the time it logs. */
  datatype Access = Access(
    clientIp: string,
    httpMethod: string,
    path: string,
    status: int,
    latencyMs: int,
    userAgent: string,
    rawQuery: string,
    errors: seq<string>)

  /** The six pairs every record starts with. */
  function FixedFields(a: Access): seq<Value>
  {
    [ Str("client_ip"), Str(a.clientIp),
      Str("method"), Str(a.httpMethod),
      Str("path"), Str(a.path),
      Str("status"), Int(a.status),
      Str("latency_ms"), Int(a.latencyMs),
      Str("user_agent"), Str(a.userAgent) ]
  }

  /** The `query` pair, present only for a non-empty raw query. */
  function QueryFields(a: Access): seq<Value>
  {
    if a.rawQuery != "" then Pair("query", Str(a.rawQuery)) else []
  }

  /** The `errors` pair, present only when the chain recorded errors; `render` is gin's rendering of the error list. */
  function ErrorFields(a: Access, render: seq<string> -> string): seq<Value>
  {
    if |a.errors| > 0 then Pair("errors", Str(render(a.errors))) else []
  }

  /** The fields in the order they are appended: the fixed six pairs, then `query`, then `errors`. */
  function LogFields(a: Access, render: seq<string> -> string): seq<Value>
  {
    FixedFields(a) + QueryFields(a) + ErrorFields(a, render)
  }

  /** The keys of a key/value argument list: its elements at even positions. */
  function Keys(fields: seq<Value>): seq<Value>
    decreases |fields|
  {
    if |fields| < 2 then [] else [fields[0]] + Keys(fields[2..])
  }

  /** The value a structured record shows for `key`: the one after the first occurrence of `key` as a key. */
  function Attr(fields: seq<Value>, key: string): Option<Value>
    decreases |fields|
  {
    if |fields| < 2 then None
    else if fields[0] == Str(key) then Some(fields[1])
    else Attr(fields[2..], key)
  }

  lemma {:induction false} KeysAppend(p: seq<Value>, q: seq<Value>)
    requires |p| % 2 == 0
    ensures Keys(p + q) == Keys(p) + Keys(q)
    decreases |p|
  {
    if |p| == 0 {
      assert p + q == q;
    } else {
      assert (p + q)[2..] == p[2..] + q;
      KeysAppend(p[2..], q);
    }
  }

  lemma {:induction false} AttrAppend(p: seq<Value>, q: seq<Value>, key: string)
    requires |p| % 2 == 0
    ensures Attr(p + q, key) == if Attr(p, key).Some? then Attr(p, key) else Attr(q, key)
    decreases |p|
  {
    if |p| == 0 {
      assert p + q == q;
    } else {
      assert (p + q)[2..] == p[2..] + q;
      AttrAppend(p[2..], q, key);
    }
  }

  lemma PairKeyValue(k: string, v: Value, key: string)
    ensures Keys(Pair(k, v)) == [Str(k)]
    ensures Attr(Pair(k, v), key) == if k == key then Some(v) else None
  {
  }

  /** The fixed part, pair by pair. */
  lemma FixedFieldsPairs(a: Access)
    ensures FixedFields(a)
         == Pair("client_ip", Str(a.clientIp)) + Pair("method", Str(a.httpMethod)) + Pair("path", Str(a.path))
          + Pair("status", Int(a.status)) + Pair("latency_ms", Int(a.latencyMs)) + Pair("user_agent", Str(a.userAgent))
  {
  }

  lemma FixedFieldsKeys(a: Access)
    ensures Keys(FixedFields(a))
         == [Str("client_ip"), Str("method"), Str("path"), Str("status"), Str("latency_ms"), Str("user_agent")]
  {
    var p1 := Pair("client_ip", Str(a.clientIp));
    var p2 := Pair("method", Str(a.httpMethod));
    var p3 := Pair("path", Str(a.path));
    var p4 := Pair("status", Int(a.status));
    var p5 := Pair("latency_ms", Int(a.latencyMs));
    var p6 := Pair("user_agent", Str(a.userAgent));
    FixedFieldsPairs(a);
    PairKeyValue("client_ip", Str(a.clientIp), "");
    PairKeyValue("method", Str(a.httpMethod), "");
    PairKeyValue("path", Str(a.path), "");
    PairKeyValue("status", Int(a.status), "");
    PairKeyValue("latency_ms", Int(a.latencyMs), "");
    PairKeyValue("user_agent", Str(a.userAgent), "");
    KeysAppend(p1, p2);
    KeysAppend(p1 + p2, p3);
    KeysAppend(p1 + p2 + p3, p4);
    KeysAppend(p1 + p2 + p3 + p4, p5);
    KeysAppend(p1 + p2 + p3 + p4 + p5, p6);
  }

  lemma FixedFieldsAttr(a: Access, key: string)
    ensures Attr(FixedFields(a), key)
         == if key == "client_ip" then Some(Str(a.clientIp))
            else if key == "method" then Some(Str(a.httpMethod))
            else if key == "path" then Some(Str(a.path))
            else if key == "status" then Some(Int(a.status))
            else if key == "latency_ms" then Some(Int(a.latencyMs))
            else if key == "user_agent" then Some(Str(a.userAgent))
            else None
  {
    var p1 := Pair("client_ip", Str(a.clientIp));
    var p2 := Pair("method", Str(a.httpMethod));
    var p3 := Pair("path", Str(a.path));
    var p4 := Pair("status", Int(a.status));
    var p5 := Pair("latency_ms", Int(a.latencyMs));
    var p6 := Pair("user_agent", Str(a.userAgent));
    FixedFieldsPairs(a);
    PairKeyValue("client_ip", Str(a.clientIp), key);
    PairKeyValue("method", Str(a.httpMethod), key);
    PairKeyValue("path", Str(a.path), key);
    PairKeyValue("status", Int(a.status), key);
    PairKeyValue("latency_ms", Int(a.latencyMs), key);
    PairKeyValue("user_agent", Str(a.userAgent), key);
    AttrAppend(p1, p2, key);
    AttrAppend(p1 + p2, p3, key);
    AttrAppend(p1 + p2 + p3, p4, key);
    AttrAppend(p1 + p2 + p3 + p4, p5, key);
    AttrAppend(p1 + p2 + p3 + p4 + p5, p6, key);
  }

  /**
   * The shape of the field list: an even number of arguments (12, 14 or 16),
   * the six fixed keys first and in order, then `query` exactly when the raw
   * query is non-empty, then `errors` exactly when there are errors.
   */
  lemma LogFieldsKeys(a: Access, render: seq<string> -> string)
    ensures |LogFields(a, render)| % 2 == 0
    ensures |LogFields(a, render)| == 12 + (if a.rawQuery != "" then 2 else 0) + (if |a.errors| > 0 then 2 else 0)
    ensures Keys(LogFields(a, render))
         == [Str("client_ip"), Str("method"), Str("path"), Str("status"), Str("latency_ms"), Str("user_agent")]
          + (if a.rawQuery != "" then [Str("query")] else [])
          + (if |a.errors| > 0 then [Str("errors")] else [])
    ensures Str("query") in Keys(LogFields(a, render)) <==> a.rawQuery != ""
    ensures Str("errors") in Keys(LogFields(a, render)) <==> |a.errors| > 0
  {
    var f, q, e := FixedFields(a), QueryFields(a), ErrorFields(a, render);
    FixedFieldsKeys(a);
    PairKeyValue("query", Str(a.rawQuery), "");
    PairKeyValue("errors", Str(render(a.errors)), "");
    assert Keys([]) == [];
    KeysAppend(f, q);
    KeysAppend(f + q, e);
  }

  /** The value recorded under each key: the fixed six as read, `query` and `errors` only when present. */
  lemma LogFieldsValues(a: Access, render: seq<string> -> string, key: string)
    ensures Attr(LogFields(a, render), key)
         == if key == "client_ip" then Some(Str(a.clientIp))
            else if key == "method" then Some(Str(a.httpMethod))
            else if key == "path" then Some(Str(a.path))
            else if key == "status" then Some(Int(a.status))
            else if key == "latency_ms" then Some(Int(a.latencyMs))
            else if key == "user_agent" then Some(Str(a.userAgent))
            else if key == "query" && a.rawQuery != "" then Some(Str(a.rawQuery))
            else if key == "errors" && |a.errors| > 0 then Some(Str(render(a.errors)))
            else None
  {
    var f, q, e := FixedFields(a), QueryFields(a), ErrorFields(a, render);
    FixedFieldsAttr(a, key);
    PairKeyValue("query", Str(a.rawQuery), key);
    PairKeyValue("errors", Str(render(a.errors)), key);
    AttrAppend(f, q, key);
    AttrAppend(f + q, e, key);
  }

  /** Builds the field list the way the middleware does: the fixed literal, then conditional appends. */
  method BuildLogFields(a: Access, render: seq<string> -> string) returns (logFields: seq<Value>)
    ensures logFields == LogFields(a, render)
  {
    logFields := [
      Str("client_ip"), Str(a.clientIp),
      Str("method"), Str(a.httpMethod),
      Str("path"), Str(a.path),
      Str("status"), Int(a.status),
      Str("latency_ms"), Int(a.latencyMs),
      Str("user_agent"), Str(a.userAgent)
    ];
    if a.rawQuery != "" {
      logFields := logFields + [Str("query"), Str(a.rawQuery)];
    }
    if |a.errors| > 0 {
      logFields := logFields + [Str("errors"), Str(render(a.errors))];
    }
  }

  // ---------------------------------------------------------------------------
  // The middleware
  // ---------------------------------------------------------------------------

  /** The request context as the middleware reads it, before or after the handler chain runs. */
  datatype Context = Context(
    clientIp: string,
    httpMethod: string,
    path: string,
    rawQuery: string,
    userAgent: string,
    status: int,
    errors: seq<string>)

  /** One structured log record. */
  datatype Record = Record(level: Level, message: string, fields: seq<Value>)

  /** A slog logger, by identity. */
  datatype LoggerRef = LoggerRef(id: nat)

  /** A record and the logger that received it. */
  datatype Emission = Emission(logger: LoggerRef, record: Record)

  /**
   * The record for a request whose context was `before` when the middleware
   * started and `after` once the chain returned: path and query as captured
   * before, everything else as read after, severity from the final status.
   */
  function AccessRecord(before: Context, after: Context, latencyMs: int, render: seq<string> -> string): (r: Record)
    ensures Attr(r.fields, "path") == Some(Str(before.path))
    ensures Attr(r.fields, "query") == if before.rawQuery != "" then Some(Str(before.rawQuery)) else None
    ensures Attr(r.fields, "method") == Some(Str(after.httpMethod))
    ensures Attr(r.fields, "status") == Some(Int(after.status))
    ensures Attr(r.fields, "errors") == if |after.errors| > 0 then Some(Str(render(after.errors))) else None
    ensures (r.level, r.message) == (Classify(after.status).level, Classify(after.status).message)
  {
    var a := Access(after.clientIp, after.httpMethod, before.path, after.status, latencyMs,
                    after.userAgent, before.rawQuery, after.errors);
    LogFieldsValues(a, render, "path");
    LogFieldsValues(a, render, "query");
    LogFieldsValues(a, render, "method");
    LogFieldsValues(a, render, "status");
    LogFieldsValues(a, render, "errors");
    Record(Classify(after.status).level, Classify(after.status).message, LogFields(a, render))
  }

  /**
   * The body of the handler `Logger` returns, run on one request: capture path
   * and query, run the chain (`next`), read the rest, log to the default logger
   * captured when the middleware was built.
   */
  method Logger(defaultLogger: LoggerRef, c: Context, next: Context -> Context, latencyMs: int, render: seq<string> -> string)
    returns (e: Emission)
    ensures e == Emission(defaultLogger, AccessRecord(c, next(c), latencyMs, render))
  {
    var path := c.path;
    var raw := c.rawQuery;
    var after := next(c);
    var logFields := BuildLogFields(Access(after.clientIp, after.httpMethod, path, after.status, latencyMs,
                                           after.userAgent, raw, after.errors), render);
    var severity := Classify(after.status);
    e := Emission(defaultLogger, Record(severity.level, severity.message, logFields));
  }

  /** The body of the handler `LoggerWithSlog(logger)` returns: the same record, sent to `logger`. */
  method LoggerWithSlog(logger: LoggerRef, c: Context, next: Context -> Context, latencyMs: int, render: seq<string> -> string)
    returns (e: Emission)
    ensures e == Emission(logger, AccessRecord(c, next(c), latencyMs, render))
  {
    var path := c.path;
    var raw := c.rawQuery;
    var after := next(c);
    var logFields := BuildLogFields(Access(after.clientIp, after.httpMethod, path, after.status, latencyMs,
                                           after.userAgent, raw, after.errors), render);
    var severity := Classify(after.status);
    e := Emission(logger, Record(severity.level, severity.message, logFields));
  }

  // ---------------------------------------------------------------------------
  // The cases logger_test.go pins
  // ---------------------------------------------------------------------------

  /** A GET of `/test?foo=bar` answered 200 is logged as "Request completed" and records the query. */
  lemma NormalRequestLogged(before: Context, latencyMs: int, render: seq<string> -> string)
    requires before.httpMethod == "GET" && before.path == "/test" && before.rawQuery == "foo=bar"
    ensures var r := AccessRecord(before, before.(status := 200), latencyMs, render);
      && r.level == Info && r.message == "Request completed"
      && Attr(r.fields, "query") == Some(Str("foo=bar"))
  {
  }

  /** A request answered 500 is logged as "Server error" at level Error. */
  lemma ErrorRequestLogged(before: Context, latencyMs: int, render: seq<string> -> string)
    ensures var r := AccessRecord(before, before.(status := 500), latencyMs, render);
      r.level == Error && r.message == "Server error"
  {
  }

  /** A GET of `/test` answered 200 records message, method, path and status as the JSON test expects. */
  lemma SlogRecordFields(before: Context, latencyMs: int, render: seq<string> -> string)
    requires before.httpMethod == "GET" && before.path == "/test" && before.rawQuery == ""
    ensures var r := AccessRecord(before, before.(status := 200), latencyMs, render);
      && r.message == "Request completed"
      && Attr(r.fields, "method") == Some(Str("GET"))
      && Attr(r.fields, "path") == Some(Str("/test"))
      && Attr(r.fields, "status") == Some(Int(200))
      && Attr(r.fields, "query") == None
  {
  }
}
