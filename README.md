# simpleproxy routing core and access log, in Dafny

simpleproxy is a reverse proxy that picks a backend by the request's `Host`
header. This project models and proves the two parts of it that hold logic:

- `handler.dfy` (module `Handler`, from `internal/handler/router.go`):
  - the reverse-proxy table (`reserveProxy`), a class `ProxyTable` whose `routes` map is keyed by host;
  - `Init`, which fills that table from the configured `{host, upstream}` list;
  - the per-route Director, which rewrites a request in place to target its upstream;
  - `proxy`, which looks the `Host` up and answers 404 or forwards;
  - `healthz`, and the way `Router` wires the engine: the access log, optional CORS, `GET /healthz`, and `proxy` for everything else;
  - the two cases where the engine answers a request itself instead of passing it on: the trailing-slash redirect of a GET, and the CORS middleware's answer to a cross-origin preflight.
- `middleware.dfy` (module `Middleware`, from `internal/middleware/logger.go`):
  - the access-log record: the status switch that picks level and message;
  - the key/value field list, built from six fixed pairs plus an optional `query` pair and an optional `errors` pair;
  - the two middleware variants, `Logger` and `LoggerWithSlog`.
- `conf.dfy` (module `Conf`, from `internal/conf/conf.go`): the configuration records. `Router` reads `enableCors` from a `Conf.Config` and `Init` reads its `proxy` list, as the Go code reads the global `conf.Conf`.
- `wrappers.dfy` (module `Wrappers`): `Option` and `Result`.

Modelling choices:
- `url.Parse` is a parameter of type `Parser`: any total function from the configured string to an `Upstream` (scheme, host, path) or a `ParseError`. No URL grammar is modelled.
- `Init` is a loop method. It is proved against the recursive function `InitSpec`, and the lemmas about `InitSpec` state what the table holds afterwards.
- The table is not cleared by `Init`, just as the package-level Go map is not. So every statement about `Init` is relative to the table it started from.
- Forwarding itself is opaque. `proxy` yields `Forwarded(host, route)`: the key it looked up and the stored proxy it would call `ServeHTTP` on.
- The handler chain that runs between the middleware's two halves is a parameter `next: Context -> Context`. The clock is replaced by an integer `latencyMs`. Gin's rendering of the error list (`c.Errors.String()`) is a parameter `render`.

Behaviour of the code worth noting:
- The outgoing `Host` header is set to the upstream's host, not to the host the client presented.
- No `X-Forwarded-*` header is removed by the Director (`Route.Director` leaves `header` unchanged).
- A parse failure returns at once but keeps the entries already inserted.
- Duplicate hosts are resolved last-wins.
- An unknown host is logged at Debug level, not at warning level. Logging is not modelled, so this is only recorded here.
- A configured upstream is rejected only when `url.Parse` rejects it. A relative URL is accepted.

## Model

| member | source | states |
|---|---|---|
| `Handler.Route.Director` | internal/handler/router.go:55-67 | The Host header and the URL host both become the upstream's host, and the scheme becomes the upstream's scheme. The path becomes upstream path ++ incoming path, verbatim, so the target is `scheme://host` + base path + incoming path. Method, raw query, headers, body and the URL object are unchanged. |
| `Handler.ProxyTable.Init` | internal/handler/router.go:48-72 | The new table and error are exactly `InitSpec` of the old table. The table equals the old table plus the entries before the first unparsable upstream, and the error is that upstream's parse error, or none. The error is none iff every upstream parses, and then the keys are the old keys plus every configured host. |
| `Handler.FirstFailure` | internal/handler/router.go:49-53 | Returns the index of the first configured upstream that fails to parse: every earlier one parses, and the one at the index fails. |
| `Handler.InitErrorIsFirstFailure` | internal/handler/router.go:49-53 | `Init` returns the error of the first upstream that fails to parse, and returns no error iff all of them parse. |
| `Handler.InitStopsAtFirstFailure` | internal/handler/router.go:49-69 | The resulting table is the one the list truncated before the first failing entry would give, with no error. Entries before the failure stay inserted, and the failing entry and all later ones are not added. |
| `Handler.InitKeysBounds` | internal/handler/router.go:49-70 | Whatever happens, `Init` never removes a key and only adds configured hosts. |
| `Handler.InitKeys` | internal/handler/router.go:49-70 | When every upstream parses, the table's keys are exactly the old keys plus the set of configured hosts. |
| `Handler.OneEntryPerHost` | internal/handler/router.go:44-70 | Starting from the empty map, a successful `Init` leaves one entry per distinct configured host. |
| `Handler.InitLastWins` | internal/handler/router.go:69 | For a host listed several times, the table holds the proxy built from its last entry and that entry's parsed upstream. |
| `Handler.InitKeepsOtherHosts` | internal/handler/router.go:44-70 | A host no entry names keeps exactly the entry it had before `Init`, or stays absent. |
| `Handler.Proxy` | internal/handler/router.go:74-89 | The lookup key is the request's `Host` exactly. The result forwards iff that key is in the table, and then through the proxy stored under that key. A miss answers 404 with `{"error":"proxy not found"}` and forwards nothing. |
| `Handler.ConfiguredHostForwards` | internal/handler/router.go:81-88 | After a successful `Init` from the empty map, a configured host forwards through the route built from its last entry. |
| `Handler.UnconfiguredHostNotFound` | internal/handler/router.go:81-86 | After `Init` from the empty map, whether it succeeded or stopped early, a host no entry names gets the 404 answer. |
| `Handler.Healthz` | internal/handler/router.go:40-42 | `healthz` always answers 200 with the body `{"status":"ok"}`. |
| `Handler.Router` | internal/handler/router.go:16-38 | Appends the access log (`Installed.AccessLog`, standing for `middleware.Logger()`), then CORS with the fixed settings only when the configuration's `enableCors` is set. Adds `GET /healthz` and changes no other route: every route already on the engine keeps its handler. Makes `proxy` the handler for unmatched requests. Leaves the engine's trailing-slash setting as it was. |
| `Handler.ProxyTable.Serve` | internal/handler/router.go:29-42 | A GET of a path registered to `healthz` gets the health answer. A redirect happens only for a GET that misses by a trailing slash, and it points to the other spelling of the path. Any forwarding goes through `proxy` keyed by the request's `Host`. |
| `Handler.ProxyTable.HealthzAlwaysOk` | internal/handler/router.go:34-42 | On the engine `Router` builds, `GET /healthz` answers 200 `{"status":"ok"}` for any host and any table contents, including an empty table. |
| `Handler.ProxyTable.HealthzSlashRedirected` | internal/handler/router.go:33-34 | When the engine redirects trailing slashes, `GET /healthz/` gets a 301 to `/healthz` and is not proxied. |
| `Handler.ProxyTable.PreflightAnsweredByCors` | internal/handler/router.go:20-31 | With CORS enabled, an OPTIONS request whose `Origin` is set and differs from its own host is answered 204 by the CORS middleware and is not proxied. |
| `Handler.ProxyTable.OthersGoToProxy` | internal/handler/router.go:36-37 | On that engine, every other request is answered by `proxy` on its `Host`. That is any request that is not a GET of a registered path, is not a trailing-slash redirect, and is not a cross-origin preflight answered by CORS. |
| `Middleware.Classify` | internal/middleware/logger.go:53-62 | Level Error with "Server error" iff status ≥ 500. Warn with "Client error" iff 400 ≤ status < 500. Info with "Redirect" iff 300 ≤ status < 400. Info with "Request completed" iff status < 300. Never Debug. |
| `Middleware.ClassifyMonotone` | internal/middleware/logger.go:53-62 | A higher status is never logged at a lower slog level. |
| `Middleware.FixedFieldsKeys` | internal/middleware/logger.go:33-40 | The fixed part has the keys client_ip, method, path, status, latency_ms, user_agent, in that order. |
| `Middleware.LogFieldsKeys` | internal/middleware/logger.go:33-50 | The field list has even length: 12, 14 or 16. Its keys are the six fixed keys in order, then `query` iff the raw query is non-empty, then `errors` iff the error list is non-empty, always after `query`. |
| `Middleware.LogFieldsValues` | internal/middleware/logger.go:33-50 | Each fixed key records the value read for it. `query` records the raw query and `errors` the rendered errors, each only when present. Any other key records nothing. |
| `Middleware.BuildLogFields` | internal/middleware/logger.go:33-50 | The literal-then-conditional-append construction yields exactly `LogFields`. |
| `Middleware.AccessRecord` | internal/middleware/logger.go:15-62 | The record's `path` and `query` are the values captured before the chain ran. Its method, status and errors are the values read after. Level and message follow `Classify` of the final status. |
| `Middleware.Logger` | internal/middleware/logger.go:11-64 | Emits `AccessRecord` of the context before and after the chain to the default logger captured when the middleware was built. |
| `Middleware.LoggerWithSlog` | internal/middleware/logger.go:67-118 | Emits the same `AccessRecord` as `Logger` for the same inputs, to the given logger. The two variants differ only in the receiving logger. |
| `Middleware.NormalRequestLogged` | internal/middleware/logger_test.go:38-58 | A GET of `/test?foo=bar` answered 200 logs "Request completed" at Info with query `foo=bar`. |
| `Middleware.ErrorRequestLogged` | internal/middleware/logger_test.go:61-77 | A request answered 500 logs "Server error" at Error. |
| `Middleware.SlogRecordFields` | internal/middleware/logger_test.go:98-125 | A GET of `/test` answered 200 records message "Request completed", method `GET`, path `/test`, status 200, and no query. |

## Left out

- Actual forwarding (`proxy.ServeHTTP`): the transport, response streaming, the request clone the reverse proxy makes, hop-by-hop header handling and the added `X-Forwarded-For` are library behaviour. Forwarding is the opaque outcome `Forwarded(host, route)`.
- What happens to a forwarded request once it leaves `proxy` is library behaviour and is part of that forwarding. This includes the reverse proxy's 502 answer when the round trip fails, cancellation of the upstream call when the client's context ends, and the default transport's dial and TLS-handshake timeouts. This repository's code adds none of these, and it strips no forwarded headers.
- The OpenTelemetry transport wrapper set on each proxy: foreign instrumentation with no effect on routing.
- CORS behaviour beyond the preflight answer: the response headers the middleware adds, and the library's configuration defaults other than the fields `Router` sets. Only the fact that the middleware is installed only when `EnableCORS` is true, and that it answers a cross-origin OPTIONS request with 204, are modelled. The preflight's response headers and its body-less reply are reduced to `Reply(204, "")`.
- `url.Parse` internals: the parser is an abstract parameter.
- Logging side effects: the `Info`/`Debug` calls in the Director and in `proxy`, slog's JSON output, and printing the configuration are I/O. `Attr` stands for the key-to-value view of a structured record.
- Wall-clock timing: `latency_ms` is an integer input, not `time.Since(start).Milliseconds()`.
- Gin plumbing: middleware execution order at run time, `ClientIP`, and the bootstrap in `main.go` are not modelled. The trailing-slash redirect is modelled only as far as its target path: the `X-Forwarded-Prefix` header and the query string that gin carries into the `Location` are left out. Whether the engine redirects trailing slashes is a setting of the engine `Router` receives, so it is an input (`Engine.redirectTrailingSlash`).
- `Handler.Router`: its `requires "/healthz" !in m.getRoutes` stands for gin's panic when a route is registered twice. That failure is not modelled as a result.
- Handlers other than this package's own: `HandlerKind` names only `healthz` and `proxy`, so a route registered on the engine before `Router` runs is modelled only as being left in place, not by what it does.
- `c.Errors.String()` formatting: represented by the `render` parameter.
