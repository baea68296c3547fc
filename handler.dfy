/**
 * The routing core of internal/handler/router.go: the host -> reverse proxy
 * table built by `Init`, the per-route Director that rewrites a request to
 * target its upstream, the `proxy` lookup with its 404 answer, `healthz`, and
 * the way `Router` wires them into the engine.
 */
module Handler {
  import opened Wrappers
  import Conf

  // ---------------------------------------------------------------------------
  // Upstreams and the abstract URL parser
  // ---------------------------------------------------------------------------

  /** The parts of a parsed upstream URL that the Director uses. */
  datatype Upstream = Upstream(scheme: string, host: string, path: string)

  /** The error `url.Parse` reports for a string it rejects. */
  datatype ParseError = ParseError(message: string)

  /** `url.Parse`, kept abstract: any total function from the configured string to an upstream or an error. */
  type Parser = string -> Result<Upstream, ParseError>

  // ---------------------------------------------------------------------------
  // Requests, as the Director sees them (`*http.Request` and its `*url.URL`)
  // ---------------------------------------------------------------------------

  class Url {
    var scheme: string
    var host: string
    var path: string
    var rawQuery: string

    constructor (scheme: string, host: string, path: string, rawQuery: string)
      ensures this.scheme == scheme && this.host == host
      ensures this.path == path && this.rawQuery == rawQuery
    {
      this.scheme := scheme;
      this.host := host;
      this.path := path;
      this.rawQuery := rawQuery;
    }
  }

  class Request {
    var httpMethod: string
    /** The `Host` the client presented; `proxy` looks the route up by it. */
    var host: string
    var url: Url
    var header: map<string, seq<string>>
    var body: seq<char>

    constructor (httpMethod: string, host: string, url: Url, header: map<string, seq<string>>, body: seq<char>)
      ensures this.httpMethod == httpMethod && this.host == host && this.url == url
      ensures this.header == header && this.body == body
    {
      this.httpMethod := httpMethod;
      this.host := host;
      this.url := url;
      this.header := header;
      this.body := body;
    }
  }

  /** Where a URL points: scheme, authority and path (query and escaping left aside). */
  function Target(u: Url): string
    reads u
  {
    u.scheme + "://" + u.host + u.path
  }

  // ---------------------------------------------------------------------------
  // Routes and the Director
  // ---------------------------------------------------------------------------

  /** The reverse proxy `Init` stores under a host: its configuration entry and the parsed upstream its Director captured. */
  datatype Route = Route(conf: Conf.Proxy, upstream: Upstream)
  {
    /**
     * The Director closure: points the request at the upstream in place.
     * The Host header and the URL authority both become the upstream's host,
     * the scheme the upstream's scheme, and the path is the upstream path
     * followed verbatim by the incoming path; nothing else is touched.
     */
    method Director(req: Request)
      modifies req, req.url
      ensures req.url == old(req.url)
      ensures req.host == upstream.host
      ensures req.url.host == upstream.host
      ensures req.url.scheme == upstream.scheme
      ensures req.url.path == upstream.path + old(req.url.path)
      ensures req.url.rawQuery == old(req.url.rawQuery)
      ensures req.httpMethod == old(req.httpMethod)
      ensures req.header == old(req.header) && req.body == old(req.body)
      ensures Target(req.url) == upstream.scheme + "://" + upstream.host + upstream.path + old(req.url.path)
    {
      req.host := upstream.host;
      req.url.host := upstream.host;
      req.url.scheme := upstream.scheme;
      req.url.path := upstream.path + req.url.path;
    }
  }

  // ---------------------------------------------------------------------------
  // Building the table: what `Init` computes
  // ---------------------------------------------------------------------------

  /** The table after `Init` and the error it returned, if any. */
  datatype InitOutcome = InitOutcome(table: map<string, Route>, err: Option<ParseError>)

  /**
   * `Init` over `confs`, starting from `table`: entries are inserted in order,
   * a later entry overwriting an earlier one with the same host, and the walk
   * stops at the first upstream that does not parse, returning its error.
   */
  function InitSpec(table: map<string, Route>, confs: seq<Conf.Proxy>, parse: Parser): InitOutcome
    decreases |confs|
  {
    if |confs| == 0 then InitOutcome(table, None)
    else match parse(confs[0].upstream)
      case Failure(e) => InitOutcome(table, Some(e))
      case Success(u) => InitSpec(table[confs[0].host := Route(confs[0], u)], confs[1..], parse)
  }

  /** The hosts named by a configuration list. */
  function Hosts(confs: seq<Conf.Proxy>): set<string>
    decreases |confs|
  {
    if |confs| == 0 then {} else {confs[0].host} + Hosts(confs[1..])
  }

  /** Every configured upstream parses. */
  ghost predicate AllParse(confs: seq<Conf.Proxy>, parse: Parser)
  {
    forall i :: 0 <= i < |confs| ==> parse(confs[i].upstream).Success?
  }

  /** The index of the first upstream that does not parse, or `|confs|` when all do. */
  function FirstFailure(confs: seq<Conf.Proxy>, parse: Parser): (k: nat)
    ensures k <= |confs|
    ensures forall i :: 0 <= i < k ==> parse(confs[i].upstream).Success?
    ensures k < |confs| ==> parse(confs[k].upstream).Failure?
    decreases |confs|
  {
    if |confs| == 0 || parse(confs[0].upstream).Failure? then 0
    else 1 + FirstFailure(confs[1..], parse)
  }

  lemma {:induction false} HostsMember(confs: seq<Conf.Proxy>, h: string)
    ensures h in Hosts(confs) <==> exists i :: 0 <= i < |confs| && confs[i].host == h
    decreases |confs|
  {
    if |confs| > 0 {
      HostsMember(confs[1..], h);
      if h in Hosts(confs[1..]) {
        var i :| 0 <= i < |confs[1..]| && confs[1..][i].host == h;
        assert confs[i + 1].host == h;
      }
      if exists i :: 0 <= i < |confs| && confs[i].host == h {
        var i :| 0 <= i < |confs| && confs[i].host == h;
        if i > 0 {
          assert confs[1..][i - 1].host == h;
        }
      }
    }
  }

  /** `Init` fails exactly when some upstream does not parse, and then with the first such upstream's error. */
  lemma {:induction false} InitErrorIsFirstFailure(table: map<string, Route>, confs: seq<Conf.Proxy>, parse: Parser)
    ensures var k := FirstFailure(confs, parse);
      InitSpec(table, confs, parse).err == if k < |confs| then Some(parse(confs[k].upstream).error) else None
    ensures InitSpec(table, confs, parse).err == None <==> AllParse(confs, parse)
    decreases |confs|
  {
    if |confs| > 0 && parse(confs[0].upstream).Success? {
      var u := parse(confs[0].upstream).value;
      InitErrorIsFirstFailure(table[confs[0].host := Route(confs[0], u)], confs[1..], parse);
      if AllParse(confs[1..], parse) {
        forall i | 0 <= i < |confs| ensures parse(confs[i].upstream).Success? {
          if i > 0 { assert confs[i] == confs[1..][i - 1]; }
        }
      }
      if AllParse(confs, parse) {
        forall i | 0 <= i < |confs[1..]| ensures parse(confs[1..][i].upstream).Success? {
          assert confs[1..][i] == confs[i + 1];
        }
      }
    }
  }

  /**
   * Entries before the first failing upstream are inserted exactly as if the
   * list ended there; the failing entry and everything after it are not.
   */
  lemma {:induction false} InitStopsAtFirstFailure(table: map<string, Route>, confs: seq<Conf.Proxy>, parse: Parser)
    ensures var k := FirstFailure(confs, parse);
      InitSpec(table, confs, parse).table == InitSpec(table, confs[..k], parse).table
    ensures var k := FirstFailure(confs, parse);
      InitSpec(table, confs[..k], parse).err == None
    decreases |confs|
  {
    var k := FirstFailure(confs, parse);
    if |confs| > 0 && parse(confs[0].upstream).Success? {
      var u := parse(confs[0].upstream).value;
      var next := table[confs[0].host := Route(confs[0], u)];
      InitStopsAtFirstFailure(next, confs[1..], parse);
      assert k == 1 + FirstFailure(confs[1..], parse);
      assert confs[..k][0] == confs[0];
      assert confs[..k][1..] == confs[1..][..k - 1];
    }
  }

  /** Entries for hosts the list does not mention are left as they were. */
  lemma {:induction false} InitKeepsOtherHosts(table: map<string, Route>, confs: seq<Conf.Proxy>, parse: Parser, h: string)
    requires h !in Hosts(confs)
    ensures h in InitSpec(table, confs, parse).table <==> h in table
    ensures h in table ==> InitSpec(table, confs, parse).table[h] == table[h]
    decreases |confs|
  {
    if |confs| > 0 && parse(confs[0].upstream).Success? {
      var u := parse(confs[0].upstream).value;
      InitKeepsOtherHosts(table[confs[0].host := Route(confs[0], u)], confs[1..], parse, h);
    }
  }

  /** Whatever happens, `Init` only adds entries, and only under configured hosts. */
  lemma {:induction false} InitKeysBounds(table: map<string, Route>, confs: seq<Conf.Proxy>, parse: Parser)
    ensures table.Keys <= InitSpec(table, confs, parse).table.Keys <= table.Keys + Hosts(confs)
    decreases |confs|
  {
    if |confs| > 0 && parse(confs[0].upstream).Success? {
      var u := parse(confs[0].upstream).value;
      InitKeysBounds(table[confs[0].host := Route(confs[0], u)], confs[1..], parse);
    }
  }

  /** When every upstream parses, the table gains exactly one key per configured host. */
  lemma {:induction false} InitKeys(table: map<string, Route>, confs: seq<Conf.Proxy>, parse: Parser)
    requires AllParse(confs, parse)
    ensures InitSpec(table, confs, parse).table.Keys == table.Keys + Hosts(confs)
    decreases |confs|
  {
    if |confs| > 0 {
      var u := parse(confs[0].upstream).value;
      assert AllParse(confs[1..], parse) by {
        forall i | 0 <= i < |confs[1..]| ensures parse(confs[1..][i].upstream).Success? {
          assert confs[1..][i] == confs[i + 1];
        }
      }
      InitKeys(table[confs[0].host := Route(confs[0], u)], confs[1..], parse);
    }
  }

  /** Starting from the empty map, a successful `Init` leaves one entry per distinct host. */
  lemma OneEntryPerHost(confs: seq<Conf.Proxy>, parse: Parser)
    requires AllParse(confs, parse)
    ensures |InitSpec(map[], confs, parse).table| == |Hosts(confs)|
  {
    InitKeys(map[], confs, parse);
    var t := InitSpec(map[], confs, parse).table;
    assert t.Keys == Hosts(confs);
  }

  /**
   * Last wins: when the list mentions a host several times, the table holds
   * the proxy built from the last of those entries.
   */
  lemma {:induction false} InitLastWins(table: map<string, Route>, confs: seq<Conf.Proxy>, parse: Parser, j: nat)
    requires AllParse(confs, parse)
    requires j < |confs|
    requires forall i :: j < i < |confs| ==> confs[i].host != confs[j].host
    ensures confs[j].host in InitSpec(table, confs, parse).table
    ensures InitSpec(table, confs, parse).table[confs[j].host] == Route(confs[j], parse(confs[j].upstream).value)
    decreases |confs|
  {
    var u := parse(confs[0].upstream).value;
    var next := table[confs[0].host := Route(confs[0], u)];
    assert AllParse(confs[1..], parse) by {
      forall i | 0 <= i < |confs[1..]| ensures parse(confs[1..][i].upstream).Success? {
        assert confs[1..][i] == confs[i + 1];
      }
    }
    if j == 0 {
      var h := confs[0].host;
      HostsMember(confs[1..], h);
      forall i | 0 <= i < |confs[1..]| ensures confs[1..][i].host != h {
        assert confs[1..][i] == confs[i + 1];
      }
      InitKeepsOtherHosts(next, confs[1..], parse, h);
    } else {
      forall i | j - 1 < i < |confs[1..]| ensures confs[1..][i].host != confs[1..][j - 1].host {
        assert confs[1..][i] == confs[i + 1];
      }
      InitLastWins(next, confs[1..], parse, j - 1);
    }
  }

  // ---------------------------------------------------------------------------
  // Answers and the `proxy` lookup
  // ---------------------------------------------------------------------------

  const StatusOk: int := 200
  const StatusNotFound: int := 404
  const HealthzBody: string := "{\"status\":\"ok\"}"
  const NotFoundBody: string := "{\"error\":\"proxy not found\"}"

  const StatusNoContent: int := 204
  const StatusMovedPermanently: int := 301

  /**
   * How a request is answered: by a handler or middleware itself, by the
   * engine's redirect to the other trailing-slash spelling of a registered
   * path, or by handing it to the reverse proxy stored under `host`.
   */
  datatype Response =
    | Reply(status: int, body: string)
    | Redirect(status: int, location: string)
    | Forwarded(host: string, route: Route)

  /** `healthz`: a fixed JSON answer. */
  function Healthz(): (r: Response)
    ensures r == Reply(StatusOk, HealthzBody)
  {
    Reply(StatusOk, HealthzBody)
  }

  /**
   * `proxy`: look the request's `Host` up, byte for byte, in the table. A miss
   * answers 404 with the JSON error body and forwards nothing; a hit forwards
   * through the proxy stored under that very key.
   */
  function Proxy(routes: map<string, Route>, host: string): (r: Response)
    ensures r.Forwarded? <==> host in routes
    ensures r.Forwarded? ==> r.host == host && r.route == routes[host]
    ensures host !in routes ==> r == Reply(StatusNotFound, NotFoundBody)
  {
    if host in routes then Forwarded(host, routes[host])
    else Reply(StatusNotFound, NotFoundBody)
  }

  /** A configured host forwards through the proxy built from its last configuration entry. */
  lemma ConfiguredHostForwards(confs: seq<Conf.Proxy>, parse: Parser, j: nat)
    requires AllParse(confs, parse)
    requires j < |confs|
    requires forall i :: j < i < |confs| ==> confs[i].host != confs[j].host
    ensures Proxy(InitSpec(map[], confs, parse).table, confs[j].host)
         == Forwarded(confs[j].host, Route(confs[j], parse(confs[j].upstream).value))
  {
    InitLastWins(map[], confs, parse, j);
  }

  /** A host no entry names gets the 404 answer, even when `Init` stopped on a bad upstream. */
  lemma UnconfiguredHostNotFound(confs: seq<Conf.Proxy>, parse: Parser, host: string)
    requires host !in Hosts(confs)
    ensures Proxy(InitSpec(map[], confs, parse).table, host) == Reply(StatusNotFound, NotFoundBody)
  {
    InitKeysBounds(map[], confs, parse);
  }

  // ---------------------------------------------------------------------------
  // The engine `Router` configures
  // ---------------------------------------------------------------------------

  /** The CORS settings `Router` prepares (the fields it sets on the library default). */
  datatype CorsConfig = CorsConfig(
    allowAllOrigins: bool,
    allowMethods: seq<string>,
    allowHeaders: seq<string>,
    allowCredentials: bool,
    exposeHeaders: seq<string>)

  const ProxyCors: CorsConfig := CorsConfig(
    true,
    ["GET", "POST", "PUT", "PATCH", "DELETE", "HEAD", "OPTIONS"],
    ["*"],
    true,
    ["Content-Length", "Content-Type", "etag", "last-modified"])

  /**
   * A global middleware `Router` installs: `AccessLog` stands for
   * `middleware.Logger()` (modelled in module `Middleware`), `Cors` for
   * `cors.New(config)`.
   */
  datatype Installed = AccessLog | Cors(config: CorsConfig)

  datatype HandlerKind = HealthzHandler | ProxyHandler

  /**
   * The parts of the engine that decide who answers: the global middleware
   * chain, whether a GET that misses only by a trailing slash is redirected
   * (a setting of the engine `Router` is handed), the GET routes and the
   * fallback handler.
   */
  datatype Engine = Engine(
    middleware: seq<Installed>,
    redirectTrailingSlash: bool,
    getRoutes: map<string, HandlerKind>,
    noRoute: Option<HandlerKind>)

  /**
   * `Router`: the access log first, CORS only when the configuration enables it, `GET /healthz`
   * registered, and every unmatched request sent to `proxy`.
   */
  function Router(m: Engine, cfg: Conf.Config): (e: Engine)
    requires "/healthz" !in m.getRoutes
    ensures |e.middleware| == |m.middleware| + (if cfg.enableCors then 2 else 1)
    ensures e.middleware[..|m.middleware|] == m.middleware
    ensures e.middleware[|m.middleware|] == AccessLog
    ensures cfg.enableCors ==> e.middleware[|m.middleware| + 1] == Cors(ProxyCors)
    ensures e.redirectTrailingSlash == m.redirectTrailingSlash
    ensures e.getRoutes == m.getRoutes["/healthz" := HealthzHandler]
    ensures e.noRoute == Some(ProxyHandler)
  {
    var chain := m.middleware + [AccessLog] + (if cfg.enableCors then [Cors(ProxyCors)] else []);
    Engine(chain, m.redirectTrailingSlash, m.getRoutes["/healthz" := HealthzHandler], Some(ProxyHandler))
  }

  /** `Header.Get`: the first value stored under `key`, or "" when there is none. */
  function HeaderGet(header: map<string, seq<string>>, key: string): string
  {
    if key in header && |header[key]| > 0 then header[key][0] else ""
  }

  /** The chain holds a CORS middleware. */
  predicate HasCors(chain: seq<Installed>)
  {
    exists i :: 0 <= i < |chain| && chain[i].Cors?
  }

  /**
   * A preflight the CORS middleware answers itself (204, chain aborted): an
   * OPTIONS request with an `Origin` that is set and is not the request's own
   * host. Every origin is allowed by the configuration `Router` installs.
   */
  predicate IsCrossOriginPreflight(httpMethod: string, host: string, origin: string)
  {
    httpMethod == "OPTIONS" && origin != "" && origin != "http://" + host && origin != "https://" + host
  }

  /** The other trailing-slash spelling of a path. */
  function SlashVariant(path: string): string
  {
    if |path| > 1 && path[|path| - 1] == '/' then path[..|path| - 1] else path + "/"
  }

  /** A GET that matches no route but would with its trailing slash added or removed, on an engine that redirects those. */
  predicate TrailingSlashRedirects(e: Engine, httpMethod: string, path: string)
  {
    && httpMethod == "GET"
    && e.redirectTrailingSlash
    && path != "/"
    && path !in e.getRoutes
    && SlashVariant(path) in e.getRoutes
  }

  // ---------------------------------------------------------------------------
  // The reverse-proxy table (`reserveProxy`)
  // ---------------------------------------------------------------------------

  class ProxyTable {
    var routes: map<string, Route>

    constructor ()
      ensures routes == map[]
    {
      routes := map[];
    }

    /**
     * `Init`: walk the configuration's `proxy` entries in order, parse each upstream and
     * store a proxy for it under its host; return the first parse error.
     */
    method Init(cfg: Conf.Config, parse: Parser) returns (err: Option<ParseError>)
      modifies this
      ensures InitOutcome(routes, err) == InitSpec(old(routes), cfg.proxy, parse)
      ensures var k := FirstFailure(cfg.proxy, parse);
        && routes == InitSpec(old(routes), cfg.proxy[..k], parse).table
        && err == if k < |cfg.proxy| then Some(parse(cfg.proxy[k].upstream).error) else None
      ensures err == None <==> AllParse(cfg.proxy, parse)
      ensures err == None ==> routes.Keys == old(routes).Keys + Hosts(cfg.proxy)
    {
      var i := 0;
      while i < |cfg.proxy|
        invariant 0 <= i <= |cfg.proxy|
        invariant InitSpec(routes, cfg.proxy[i..], parse) == InitSpec(old(routes), cfg.proxy, parse)
      {
        var proxyConf := cfg.proxy[i];
        var upstreamUrl := parse(proxyConf.upstream);
        if upstreamUrl.Failure? {
          err := Some(upstreamUrl.error);
          break;
        }
        assert cfg.proxy[i..][1..] == cfg.proxy[i + 1..];
        routes := routes[proxyConf.host := Route(proxyConf, upstreamUrl.value)];
        i := i + 1;
      }
      if i == |cfg.proxy| {
        err := None;
      }
      InitErrorIsFirstFailure(old(routes), cfg.proxy, parse);
      InitStopsAtFirstFailure(old(routes), cfg.proxy, parse);
      if err == None {
        InitKeys(old(routes), cfg.proxy, parse);
      }
    }

    /**
     * Who answers a request on engine `e`: a registered GET route's handler;
     * otherwise the trailing-slash redirect; otherwise the middleware chain,
     * where CORS answers a cross-origin preflight; otherwise the fallback
     * handler.
     */
    function Serve(e: Engine, req: Request): (r: Response)
      reads this, req, req.url
      ensures req.httpMethod == "GET" && req.url.path in e.getRoutes && e.getRoutes[req.url.path] == HealthzHandler
        ==> r == Healthz()
      ensures r.Forwarded? ==> r == Proxy(routes, req.host)
      ensures r.Redirect? ==>
                TrailingSlashRedirects(e, req.httpMethod, req.url.path)
                && r == Redirect(StatusMovedPermanently, SlashVariant(req.url.path))
    {
      var path := req.url.path;
      var handler: Option<HandlerKind> :=
        if req.httpMethod == "GET" && path in e.getRoutes then Some(e.getRoutes[path]) else e.noRoute;
      if TrailingSlashRedirects(e, req.httpMethod, path) then
        Redirect(StatusMovedPermanently, SlashVariant(path))
      else if !(req.httpMethod == "GET" && path in e.getRoutes)
         && HasCors(e.middleware) && IsCrossOriginPreflight(req.httpMethod, req.host, HeaderGet(req.header, "Origin")) then
        Reply(StatusNoContent, "")
      else match handler
        case Some(HealthzHandler) => Healthz()
        case Some(ProxyHandler) => Proxy(routes, req.host)
        case None => Reply(StatusNotFound, "404 page not found")
    }

    /** `GET /healthz` answers 200 `{"status":"ok"}` whatever the host and whatever the table holds. */
    lemma HealthzAlwaysOk(m: Engine, cfg: Conf.Config, req: Request)
      requires "/healthz" !in m.getRoutes
      requires req.httpMethod == "GET" && req.url.path == "/healthz"
      ensures Serve(Router(m, cfg), req) == Reply(StatusOk, HealthzBody)
    {
    }

    /** With trailing-slash redirects on, `GET /healthz/` is redirected to `/healthz` and never reaches `proxy`. */
    lemma HealthzSlashRedirected(m: Engine, cfg: Conf.Config, req: Request)
      requires "/healthz" !in m.getRoutes && "/healthz/" !in m.getRoutes
      requires m.redirectTrailingSlash
      requires req.httpMethod == "GET" && req.url.path == "/healthz/"
      ensures Serve(Router(m, cfg), req) == Redirect(StatusMovedPermanently, "/healthz")
    {
      assert SlashVariant("/healthz/") == "/healthz";
    }

    /** With CORS enabled, a cross-origin preflight is answered 204 by the CORS middleware and never reaches `proxy`. */
    lemma PreflightAnsweredByCors(m: Engine, cfg: Conf.Config, req: Request)
      requires "/healthz" !in m.getRoutes
      requires cfg.enableCors
      requires IsCrossOriginPreflight(req.httpMethod, req.host, HeaderGet(req.header, "Origin"))
      ensures Serve(Router(m, cfg), req) == Reply(StatusNoContent, "")
    {
      var e := Router(m, cfg);
      assert e.middleware[|m.middleware| + 1].Cors?;
    }

    /**
     * Every other request (not a GET of a registered path, not redirected for
     * its trailing slash, not a preflight the CORS middleware answers) goes to
     * `proxy`, keyed by its `Host`.
     */
    lemma OthersGoToProxy(m: Engine, cfg: Conf.Config, req: Request)
      requires "/healthz" !in m.getRoutes
      requires !(req.httpMethod == "GET" && req.url.path in Router(m, cfg).getRoutes)
      requires !TrailingSlashRedirects(Router(m, cfg), req.httpMethod, req.url.path)
      requires !(HasCors(Router(m, cfg).middleware)
                 && IsCrossOriginPreflight(req.httpMethod, req.host, HeaderGet(req.header, "Origin")))
      ensures Serve(Router(m, cfg), req) == Proxy(routes, req.host)
    {
    }
  }
}
