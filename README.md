# zeropino in Dafny

zeropino is a Go library that builds zerolog loggers whose records follow
the pino conventions. Records carry `"msg"`, a numeric-string level
("10" trace … "60" fatal, "70" panic), the pid and the hostname. The library
also ships HTTP access-log middlewares for net/http, gorilla/mux and fiber.
These middlewares give every request a child logger carrying its request
id, make that logger reachable from the request's context, and log one
record on the way in and one on the way out.

This project models:

- **Level mapping** (`PinoModel`, `PinoInternal`): `ConvertLevel` maps a
  zerolog severity to a pino code. `ParseLevel` maps a level name to a
  severity. The two packages hold identical copies, and each copy is proved
  equal to the other.
- **Logger construction** (`Zeropino`): `Init`, `InitDefault` and
  `createLogger` are modelled against zerolog's four package-wide variables
  (`Zerolog.Globals`). Every construction rewrites those variables. A record
  is stamped with the settings current when it is written, so the last
  construction decides the format of every logger's records
  (`Zeropino.SettingsAreShared`).
- **Context carriers** (`LoggerContext`, `StdContext`, `MuxContext`,
  `FiberLocals`): they attach a logger to a Go context or to fiber's locals
  and retrieve it, falling back to a default logger. A typed nil
  `*zerolog.Logger` keeps Go's meaning: it is stored, and `Get` returns it.
- **Access-log middlewares** (`StdLogMiddleware`, `GorillaMuxLogMiddleware`,
  `FiberMiddleware`, `FiberLegacy`, sharing `AccessLog`): request-id
  resolution, route exclusion by prefix, and the records one request leaves
  in the sink. The handler is run once on the request, and the response
  writer's header, status and byte count change as the handler decides.

Parts of zerolog, net/http, context, strconv and fiber are modelled as far
as the core relies on them:

- record emission: a record is kept iff its level is at least the logger's;
- `Header.Get`: canonical MIME key; the module also proves that lower-case
  keys such as gorilla/mux's `"x-forwarded-host"` read the same header as
  the canonical spelling, via `NetHttp.HeaderGetIgnoresCase`;
- `strconv.Atoi` and `Itoa`, limited to int64;
- `strings.Split(host, ":")[0]`;
- `fiber.Ctx`: its locals, `Next`, and the response status and length.

The source is followed where the documentation says otherwise:

- `InitOptions.UseTimeMs` defaults to Unix seconds. That is what
  `createLogger` does, although the repository's test expects
  milliseconds.
- The carriers' `Get` returns a stored typed nil, although its comment
  says that a missing logger yields the default one.
- fiber's `ReqLogger` builds a new `InitDefault` logger on every call
  without a stored logger. That call also resets the process-wide settings
  (seconds, pino codes) for every existing logger.

## Model

| member | source | states |
|---|---|---|
| PinoModel.ConvertLevel | internal/model/pino.go:26-52 | the code is "" exactly for the levels without a name (NoLevel, Disabled, any other int8); a named level gets a two-digit code whose integer value is 10·(rank), trace 10 up to panic 70 |
| PinoModel.ParseLevel | internal/model/pino.go:55-78 | "" gives info without error; an error is returned iff the name is non-empty and its ASCII lower case is none of the seven level names; the error is NoLevel with message "level X is not recognized" quoting X as written; otherwise the level whose name matches |
| PinoModel.ConvertLevelTable | internal/model/pino.go:16-49 | the switch table: trace "10", debug "20", info "30", warn "40", error "50", fatal "60", panic "70", NoLevel and Disabled "" |
| PinoModel.CodesIncreaseWithSeverity | internal/model/pino.go:16-22 | for named levels a < b the codes differ and their integer values increase strictly |
| PinoModel.ParseLevelIgnoresCase | internal/model/pino.go:57 | two names with the same ASCII lower case parse to the same level, and both succeed or both fail |
| PinoModel.ParseLevelName | internal/model/pino.go:57-71 | every level name, in any ASCII casing, parses to its level without error |
| PinoModel.ParseThenConvert | internal/model/pino.go:26-78 | every name ParseLevel accepts yields a level that has a pino code; the empty name yields the info code "30" |
| PinoInternal.ConvertLevel | internal/pinoModel.go:26-52 | the internal copy agrees with PinoModel.ConvertLevel on every level, and gives "" exactly for the unnamed levels |
| PinoInternal.ParseLevel | internal/pinoModel.go:55-78 | the internal copy agrees with PinoModel.ParseLevel on every name: info for "", and an error iff the name matches no level |
| Zeropino.ResolveOptions | main.go:37-47 | Init fails iff the level name is non-empty and unrecognised, and returns the parser's message; otherwise the level is info for "" or the named one, the writer is standard output when none is given, and UseTimeMs is passed through |
| Zeropino.CreateLogger | main.go:57-79 | the four package settings become "msg", the pino level codes, the pkg/errors stack marshaler, and Unix seconds or milliseconds; the new logger has the given level and writer and a context of timestamp, pid and hostname ("" when the lookup fails) |
| Zeropino.Init | main.go:37-49 | on an unrecognised level it returns a nil logger and the error and leaves the settings untouched; otherwise it returns a fresh logger built from the resolved options |
| Zeropino.InitDefault | main.go:53-55 | a fresh info-level logger on standard output, with the settings in Unix seconds |
| Zeropino.EmptyOptionsAreDefault | main.go:38-47 | Init with no options resolves to standard output, info level, seconds |
| Zeropino.CustomLevelFails | main.go:43-46 | the level "custom" is rejected with "level custom is not recognized" |
| Zeropino.SettingsAreShared | main.go:58-66 | a logger built for milliseconds writes its record in Unix seconds once a second logger has been built after it |
| LoggerContext.Carrier.constructor | context.go:13 | the package default logger is an InitDefault logger on standard output at info level |
| LoggerContext.Carrier.WithLogger | context.go:17-19 | the derived context holds the pointer under the package key, and every other key is unchanged |
| LoggerContext.Carrier.Get | context.go:23-35 | a stored *zerolog.Logger is returned as stored; when nothing, an untyped nil or another type is stored, the default logger is returned; the result is nil iff a typed nil was stored |
| LoggerContext.GetWithLogger | context.go:17-35 | Get after WithLogger returns the attached pointer, a typed nil included |
| LoggerContext.LaterWithLoggerShadows | context.go:17-19 | a later WithLogger shadows an earlier one |
| LoggerContext.GetWithoutLogger | context.go:24-28 | without a stored logger, Get returns the non-nil info-level default |
| LoggerContext.GetOtherValue | context.go:30-33 | a value of another type under the key yields the default logger |
| LoggerContext.FallbackIsShared | context.go:13 | every context without a logger yields the same default logger |
| StdContext.Carrier.constructor | middlewares/std/context.go:29 | the package default logger is an InitDefault logger on standard output at info level |
| StdContext.Carrier.WithLogger | middlewares/std/context.go:33-35 | the derived context holds the pointer under the std key, and every other key is unchanged |
| StdContext.Carrier.Get | middlewares/std/context.go:39-51 | a stored pointer is returned as stored, otherwise the default logger; nil iff a typed nil was stored |
| StdContext.GetWithLogger | middlewares/std/context.go:33-51 | Get after WithLogger returns the attached pointer |
| StdContext.LaterWithLoggerShadows | middlewares/std/context.go:33-35 | a later WithLogger shadows an earlier one |
| StdContext.GetWithoutLogger | middlewares/std/context.go:40-44 | without a stored logger, Get returns the non-nil info-level default |
| StdContext.GetOtherValue | middlewares/std/context.go:46-49 | a value of another type under the key yields the default logger |
| StdContext.FallbackIsShared | middlewares/std/context.go:29 | every context without a logger yields the same default logger |
| MuxContext.Carrier.constructor | middlewares/gorillamux/context_test.go:47-55 | the default logger is non-nil, at info level, on standard output |
| MuxContext.Carrier.WithLogger | middlewares/gorillamux/context_test.go:28-45 | the derived context holds the pointer, a nil one included, under the gorillamux key; other keys are unchanged |
| MuxContext.Carrier.Get | middlewares/gorillamux/context_test.go:47-80 | a stored pointer is returned as stored, otherwise the default logger; nil iff a typed nil was stored |
| MuxContext.GetWithLogger | middlewares/gorillamux/context_test.go:57-68 | Get after WithLogger returns the attached pointer |
| MuxContext.LaterWithLoggerShadows | middlewares/gorillamux/context_test.go:36-45 | a later WithLogger shadows an earlier one |
| MuxContext.GetWithoutLogger | middlewares/gorillamux/context_test.go:48-55 | without a stored logger, Get returns the non-nil info-level default |
| MuxContext.GetOtherValue | middlewares/gorillamux/context_test.go:70-80 | a value of another type under the key yields the default logger |
| MuxContext.FallbackIsShared | middlewares/gorillamux/context_test.go:48-55 | every context without a logger yields the same default logger |
| NetHttp.HeaderGetIgnoresCase | middlewares/gorillamux/logmiddleware.go:127-128 | a header name spelled in another ASCII casing, such as "X-Request-Id" against "X-Request-ID", reads the same value |
| AccessLog.RemovePort | middlewares/std/logmiddleware.go:116-118 | the result is a prefix of the host without ':' and, when shorter, stops exactly at the host's first ':' |
| AccessLog.RemovePortKeepsPlainHost | middlewares/std/logmiddleware.go:116-118 | a host without ':' is returned unchanged |
| AccessLog.RemovePortIdempotent | middlewares/std/logmiddleware.go:116-118 | removing the port twice is removing it once |
| AccessLog.RemovePortOfHostAndPort | middlewares/std/logmiddleware.go:116-118 | "name:port" yields exactly name, whatever the port text |
| AccessLog.GetBodyLength | middlewares/std/logmiddleware.go:120-127 | the Content-Length response header when it is set and parses as an int64 (sign allowed), otherwise the fallback (the written byte count) |
| AccessLog.GetBodyLengthReadsHeader | middlewares/std/logmiddleware.go:120-127 | a Content-Length written as the decimal text of an int64 is read back exactly |
| AccessLog.MatchesExcludedPrefix | middlewares/std/logmiddleware.go:51-56 | the scan reports exclusion iff some configured prefix is a prefix of the request URI |
| AccessLog.ResolvedRequestId | middlewares/std/logmiddleware.go:129-144 | the header's id when it is non-empty, else the generated UUID, or the nil UUID when generation fails |
| AccessLog.GenerationErrorRecords | middlewares/fiber/middleware.go:107-119 | one error record ("error generating request id", with the error) iff no id came with the request, generation failed and the logger admits errors |
| AccessLog.GetReqIdRecords | middlewares/std/logmiddleware.go:129-144 | no record when the header has an id; otherwise the error records, then the trace "generated request id" record (if admitted) as the last one carrying the resolved id; all through the parent logger |
| AccessLog.ExtractRecordsArePrefix | middlewares/fiber/middleware.go:107-119 | extractRequestID writes exactly getReqID's records without the trailing trace record |
| AccessLog.AccessRecords | middlewares/std/logmiddleware.go:51-62 | an excluded route logs nothing; otherwise two records when the logger admits trace, one when it admits info, none above; the trace "incoming request" comes first and the info "request completed" with the response comes last |
| AccessLog.AccessRecordsCarryRequestId | middlewares/std/logmiddleware.go:46-47 | every access record written through the child logger carries the request id |
| StdLogMiddleware.GetReqID | middlewares/std/logmiddleware.go:129-144 | returns the resolved id of the "X-Request-ID" header and appends exactly getReqID's records to the parent's sink |
| StdLogMiddleware.LogIncoming | middlewares/std/logmiddleware.go:67-86 | appends the trace "incoming request" record with method, user agent, URI, host without port, forwarded host and IP through the context's logger, when admitted |
| StdLogMiddleware.LogOutgoing | middlewares/std/logmiddleware.go:88-114 | appends the info "request completed" record with the wrapper's status, body length and elapsed ns/10⁶, when admitted |
| StdLogMiddleware.RequestLogger.constructor | middlewares/std/logmiddleware.go:40-42 | the middleware closes over the logger, the excluded prefixes and the next handler |
| StdLogMiddleware.RequestLogger.LogAround | middlewares/std/logmiddleware.go:58-62 | incoming record, handler, completed record with the status (200 unless set) and the body length the handler produced |
| StdLogMiddleware.RequestLogger.ServeHTTP | middlewares/std/logmiddleware.go:40-65 | the parent's sink gains getReqID's records then the access records of the child logger (none on an excluded route); the handler runs exactly once, on the request whose context yields the child carrying the id; the response header, status and byte count are the handler's |
| GorillaMuxLogMiddleware.GetReqID | middlewares/gorillamux/logmiddleware.go:127-142 | returns the resolved id of the "X-Request-Id" header and appends exactly getReqID's records |
| GorillaMuxLogMiddleware.LogIncoming | middlewares/gorillamux/logmiddleware.go:65-84 | appends the trace "incoming request" record through the context's logger, when admitted |
| GorillaMuxLogMiddleware.LogOutgoing | middlewares/gorillamux/logmiddleware.go:86-112 | appends the info "request completed" record with status, body length and whole elapsed milliseconds, when admitted |
| GorillaMuxLogMiddleware.RequestMiddlewareLogger.constructor | middlewares/gorillamux/logmiddleware.go:38-40 | the middleware closes over the logger, the excluded prefixes and the next handler |
| GorillaMuxLogMiddleware.RequestMiddlewareLogger.LogAround | middlewares/gorillamux/logmiddleware.go:56-60 | incoming record, handler, completed record with the handler's status and body length |
| GorillaMuxLogMiddleware.RequestMiddlewareLogger.ServeHTTP | middlewares/gorillamux/logmiddleware.go:38-63 | as the net/http middleware: id records, then the child's access records unless excluded; one run of the handler on the request whose context yields the child |
| FiberLocals.WithLogger | middlewares/fiber/locals.go:34-36 | the locals map the logger key to the pointer, and nothing else changes |
| FiberLocals.ReqLogger | middlewares/fiber/locals.go:27-32 | a stored *zerolog.Logger (typed nil included) is returned with the settings untouched; otherwise a fresh info-level logger on standard output, after the settings are reset to seconds |
| FiberLocals.StoredLoggerIsReturned | middlewares/fiber/locals.go:27-36 | ReqLogger after WithLogger returns the stored logger and leaves the settings as they were |
| FiberMiddleware.ExtractRequestID | middlewares/fiber/middleware.go:107-119 | returns the resolved id of the "X-Request-ID" header and appends only the generation-error record |
| FiberMiddleware.LogIncoming | middlewares/fiber/middleware.go:54-73 | through a stored logger: the trace record, settings untouched; without one: the default logger drops it and the settings are reset |
| FiberMiddleware.LogCompleted | middlewares/fiber/middleware.go:75-101 | through a stored logger: the info record with the response status, Content-Length and elapsed ns/10⁶; without one: that record on standard output with the default context |
| FiberMiddleware.LogAroundNext | middlewares/fiber/middleware.go:46-50 | incoming record, Next, completed record with the status and length the rest of the chain set; Next's error is returned and the locals are kept |
| FiberMiddleware.RequestLogger | middlewares/fiber/middleware.go:39-52 | the child logger carrying the id is left in the locals; the sink gains the error record (if any) then the access records; Next runs once and its error is returned |
| FiberLegacy.LogIncoming | middlewares/fiber/fiber.go:41-60 | appends the trace "incoming request" record through the gorillamux carrier's logger, when admitted |
| FiberLegacy.LogOutgoing | middlewares/fiber/fiber.go:62-88 | appends the info record with status 200 always, the Content-Length header or 0, and whole elapsed milliseconds |
| FiberLegacy.LogMiddleware.LogAround | middlewares/fiber/fiber.go:32-36 | incoming record, wrapped handler, completed record |
| FiberLegacy.LogMiddleware.ServeHTTP | middlewares/fiber/fiber.go:24-39 | the child carries the "X-Request-Id" header as it is (no id is generated); the access records go to the logger's sink; the handler runs once on the request whose context yields the child |
| FiberLegacy.RequestLogger | middlewares/fiber/fiber.go:91-118 | stores the child logger under "log" and the start time under "startTime", appends the trace record through the child, runs Next once and returns its error |
| FiberLegacy.ResponseLogger | middlewares/fiber/fiber.go:122-157 | appends the info record with the status and Content-Length as they stand before Next, through the logger chosen from the locals; runs Next once and returns its error |
| FiberLegacy.ResponseFollowsRequest | middlewares/fiber/fiber.go:91-171 | with the locals RequestLogger leaves ("log" holding its child, "startTime" its start), ResponseLogger writes through that child, whose request id is the one RequestLogger read, and reports (now − start)/10⁶ |
| FiberLegacy.ResponseWithoutRequest | middlewares/fiber/fiber.go:124-171 | without those locals, ResponseLogger writes through its own logger and reports a response time of 0 |

## Left out

- zerolog's encoder: the JSON text of a record, the rendering of fields and stacks, and `zerolog.GlobalLevel`. A record is modelled as its level, the settings in force, the logger's context fields, its payload and its message.
- Clocks: the elapsed time is a parameter in nanoseconds. The float64 division by a million is kept symbolic (`NanosOverMillion`), and `Milliseconds()` truncation is `WholeMillis(ns / 1000000)`.
- Randomness: the outcome of `uuid.NewRandom` is a parameter. `os.Getpid` and `os.Hostname` come in as `Zeropino.Process`.
- Concurrency: zerolog's package variables are shared by goroutines. The model is sequential.
- Framework plumbing: the `http.HandlerFunc`, `mux.MiddlewareFunc` and fiber adaptor closures. Each middleware is modelled as the handler it returns, run on one request.
- Downstream handlers write no records and leave zerolog's settings alone: a net/http handler is only its effect on the response, and a fiber `Next` only sets the status and length and returns an error. Logging from a handler through the logger attached to its context is not modelled. So the sink equations of StdLogMiddleware.RequestLogger.ServeHTTP, GorillaMuxLogMiddleware.RequestMiddlewareLogger.ServeHTTP, FiberLegacy.LogMiddleware.ServeHTTP, FiberMiddleware.RequestLogger and FiberLegacy.RequestLogger, and the `unchanged(g)` of FiberMiddleware.RequestLogger, hold only for handlers that do not log.
- Response-writer details: a downstream handler is modelled as header assignments, an optional status and a byte count. `Header.Add` is treated as a set, and a header keeps one value.
- ASCII only: `strings.ToLower` and header canonicalisation fold ASCII letters only.
- The readableResponseWriter methods are not shown in the source. They are modelled as forwarding to the wrapped writer while recording the status and the bytes written.
- `fiber.Ctx.Hostname()` is taken as a given string. The downstream fiber handlers are modelled as leaving the locals alone.
- middlewares/gorillamux/context.go is not part of this model. `MuxContext` assumes it is the std carrier under its own key, as its test exercises.
- FiberMiddleware.LogIncoming: requires that the locals do not hold a typed nil, because the source would dereference nil there.
- FiberMiddleware.LogCompleted: requires that the locals do not hold a typed nil, because the source would dereference nil there.
- FiberLegacy.ResponseLogger: requires that the "log" local is not a typed nil, because the source would dereference nil there.
- FiberLegacy.ResponseLogger: does not model how it composes with RequestLogger through `Next`. `FiberLegacy.ResponseFollowsRequest` states the hand-over through the locals instead.
- GorillaMuxLogMiddleware.LogIncoming: the equality of its lower-case header lookups with the canonical spellings of the net/http middleware is stated only through `NetHttp.HeaderGetIgnoresCase`, not as a lemma about the two records.
