/**
 * The earlier fiber middlewares (middlewares/fiber/fiber.go): LogMiddleware,
 * a net/http handler adapted to fiber that logs through the gorillamux
 * carrier, and the RequestLogger/ResponseLogger pair that hands the child
 * logger and the start time over through the locals "log" and "startTime".
 * The request id is taken from the header as it is: none is generated.
 */
module FiberLegacy {
  import opened Wrappers
  import opened Zerolog
  import opened GoContext
  import opened NetHttp
  import opened AccessLog
  import opened FiberCtx
  import MuxContext

  const ForwardedHostHeaderKey := "X-Forwarded-Host"
  const ForwardedForHeaderKey := "X-Forwarded-For"
  const LogLocal := "log"
  const StartTimeLocal := "startTime"

  /** The request part of LogMiddleware's records. */
  function HttpRequestInfo(r: Request): RequestFields {
    RequestFields(r.httpMethod, HeaderGet(r.header, "User-Agent"), r.requestURI, RemovePort(r.host),
                  HeaderGet(r.header, ForwardedHostHeaderKey), HeaderGet(r.header, ForwardedForHeaderKey))
  }

  /** logIncoming: a trace record through the logger the context carries. */
  method LogIncoming(g: Globals, carrier: MuxContext.Carrier, ctx: Context, r: Request)
    requires carrier.Get(ctx) != null
    modifies carrier.Get(ctx).writer
    ensures var l := carrier.Get(ctx);
      l.writer.records == old(l.writer.records)
        + Emission(l.level, Record(TraceLevel, g.Snapshot(), l.context, IncomingRequest(HttpRequestInfo(r)), "incoming request"))
  {
    Emit(g, carrier.Get(ctx), TraceLevel, IncomingRequest(HttpRequestInfo(r)), "incoming request");
  }

  /**
   * logOutgoing: an info record whose status is always 200 and whose body
   * size is the Content-Length header, or 0.
   */
  method LogOutgoing(g: Globals, carrier: MuxContext.Carrier, ctx: Context, r: Request, w: ResponseWriter,
                     elapsedNanos: nat)
    requires carrier.Get(ctx) != null
    modifies carrier.Get(ctx).writer
    ensures var l := carrier.Get(ctx);
      l.writer.records == old(l.writer.records)
        + Emission(l.level, Record(InfoLevel, g.Snapshot(), l.context,
                                   RequestCompleted(HttpRequestInfo(r), 200, GetBodyLength(w.header, 0),
                                                    WholeMillis(elapsedNanos / 1000000)),
                                   "request completed"))
  {
    var payload := RequestCompleted(HttpRequestInfo(r), 200, GetBodyLength(w.header, 0), WholeMillis(elapsedNanos / 1000000));
    Emit(g, carrier.Get(ctx), InfoLevel, payload, "request completed");
  }

  /** The net/http handler LogMiddleware(l) wraps around the handler h. */
  class LogMiddleware {
    const l: Logger
    const h: Handler
    const carrier: MuxContext.Carrier

    constructor (l: Logger, h: Handler, carrier: MuxContext.Carrier)
      ensures this.l == l && this.h == h && this.carrier == carrier
    {
      this.l := l;
      this.h := h;
      this.carrier := carrier;
    }

    /** logIncoming, the wrapped handler, logOutgoing, through the logger ctx carries. */
    method LogAround(g: Globals, ctx: Context, w: ResponseWriter, r: Request, elapsedNanos: nat)
      requires carrier.Get(ctx) != null
      modifies carrier.Get(ctx).writer, w
      ensures var c := carrier.Get(ctx);
        c.writer.records == old(c.writer.records)
          + AccessRecords(c.level, c.context, g.Snapshot(), HttpRequestInfo(r), false, 200,
                          GetBodyLength(HeadersAfter(h, old(w.header)), 0), WholeMillis(elapsedNanos / 1000000))
      ensures w.served == old(w.served) + [r.(ctx := ctx)]
      ensures w.header == HeadersAfter(h, old(w.header))
      ensures w.status == (if h.status.Some? then h.status else old(w.status))
      ensures w.written == old(w.written) + h.bodyBytes
    {
      ghost var c := carrier.Get(ctx);
      ghost var info := HttpRequestInfo(r);
      ghost var before := c.writer.records;
      ghost var rt := WholeMillis(elapsedNanos / 1000000);
      ghost var incoming := Emission(c.level, Record(TraceLevel, g.Snapshot(), c.context, IncomingRequest(info),
                                                     "incoming request"));
      ghost var completed := Emission(c.level, Record(InfoLevel, g.Snapshot(), c.context,
                                                      RequestCompleted(info, 200, GetBodyLength(HeadersAfter(h, w.header), 0), rt),
                                                      "request completed"));
      LogIncoming(g, carrier, ctx, r);
      assert c.writer.records == before + incoming;
      Serve(h, w, r.(ctx := ctx));
      assert c.writer.records == before + incoming;
      LogOutgoing(g, carrier, ctx, r, w, elapsedNanos);
      assert c.writer.records == before + incoming + completed == before + (incoming + completed);
    }

    /** One request; the clock is a parameter. */
    method ServeHTTP(g: Globals, w: ResponseWriter, r: Request, elapsedNanos: nat)
      modifies l.writer, w
      ensures l.writer.records == old(l.writer.records)
        + AccessRecords(l.level, l.context + [StrField("reqId", HeaderGet(r.header, "X-Request-Id"))], g.Snapshot(),
                        HttpRequestInfo(r), false, 200, GetBodyLength(HeadersAfter(h, old(w.header)), 0),
                        WholeMillis(elapsedNanos / 1000000))
      ensures |w.served| == |old(w.served)| + 1 && w.served[..|old(w.served)|] == old(w.served)
      ensures var served := w.served[|old(w.served)|];
        var child := carrier.Get(served.ctx);
        served == r.(ctx := MuxContext.Carrier.WithLogger(r.ctx, child))
        && child != null && child.level == l.level && child.writer == l.writer
        && child.context == l.context + [StrField("reqId", HeaderGet(r.header, "X-Request-Id"))]
      ensures w.header == HeadersAfter(h, old(w.header))
      ensures w.status == (if h.status.Some? then h.status else old(w.status))
      ensures w.written == old(w.written) + h.bodyBytes
    {
      var child := WithStr(l, "reqId", HeaderGet(r.header, "X-Request-Id"));
      var ctx := MuxContext.Carrier.WithLogger(r.ctx, child);
      assert carrier.Get(ctx) == child;
      LogAround(g, ctx, w, r, elapsedNanos);
    }
  }

  /** The request part of the RequestLogger/ResponseLogger records. */
  function CtxRequestInfo(c: Ctx): RequestFields {
    RequestFields(c.httpMethod, c.Get("user-agent"), c.path, RemovePort(c.hostname),
                  c.Get("x-forwarded-host"), c.Get("x-forwarded-for"))
  }

  /**
   * The handler RequestLogger(logger) returns: stores the child logger and
   * the start time in the locals, logs the trace record, then runs the rest
   * of the chain and returns its error.
   */
  method RequestLogger(g: Globals, logger: Logger, c: Ctx, startNanos: int) returns (err: Option<string>)
    modifies logger.writer, c
    ensures err == c.rest.err && c.nextCalls == old(c.nextCalls) + 1
    ensures c.statusCode == old(c.StatusAfterNext()) && c.contentLength == old(c.ContentLengthAfterNext())
    ensures var v := c.Local(LogLocal);
      c.locals == old(c.locals)[LogLocal := v][StartTimeLocal := TimeValue(startNanos)]
      && v.LoggerPtr? && v.logger != null && v.logger.level == logger.level && v.logger.writer == logger.writer
      && v.logger.context == logger.context + [StrField("reqId", c.Get("x-request-id"))]
    ensures logger.writer.records == old(logger.writer.records)
      + Emission(logger.level, Record(TraceLevel, g.Snapshot(), logger.context + [StrField("reqId", c.Get("x-request-id"))],
                                      IncomingRequest(CtxRequestInfo(c)), "incoming request"))
  {
    var child := WithStr(logger, "reqId", c.Get("x-request-id"));
    c.SetLocal(LogLocal, LoggerPtr(child));
    c.SetLocal(StartTimeLocal, TimeValue(startNanos));
    assert c.Local(LogLocal) == LoggerPtr(child);

    Emit(g, child, TraceLevel, IncomingRequest(CtxRequestInfo(c)), "incoming request");

    err := c.Next();
  }

  /** The logger ResponseLogger writes through: the "log" local when it is a *zerolog.Logger. */
  function ResponseLoggerFor(stored: Value, logger: Logger): (l: Logger?)
    ensures stored.LoggerPtr? ==> l == stored.logger
    ensures !stored.LoggerPtr? ==> l == logger
  {
    if stored.LoggerPtr? then stored.logger else logger
  }

  /**
   * getResponseTime: the time since the "startTime" local when it holds a
   * time.Time, else 0. The current time is a parameter.
   */
  function GetResponseTime(start: Value, nowNanos: int): (rt: ResponseTime)
    ensures start.TimeValue? ==> rt == NanosOverMillion(nowNanos - start.nanos)
    ensures !start.TimeValue? ==> rt == ZeroResponseTime
  {
    match start
    case TimeValue(t) => NanosOverMillion(nowNanos - t)
    case _ => ZeroResponseTime
  }

  /**
   * The handler ResponseLogger(logger) returns: logs the response as it
   * stands (status and Content-Length set by the handlers before it), then
   * runs the rest of the chain and returns its error. A typed-nil "log"
   * local would make the source dereference nil, so it is excluded.
   */
  method ResponseLogger(g: Globals, logger: Logger, c: Ctx, nowNanos: int) returns (err: Option<string>)
    requires c.Local(LogLocal) != LoggerPtr(null)
    modifies ResponseLoggerFor(c.Local(LogLocal), logger).writer, c
    ensures err == c.rest.err && c.nextCalls == old(c.nextCalls) + 1
    ensures c.statusCode == old(c.StatusAfterNext()) && c.contentLength == old(c.ContentLengthAfterNext())
    ensures c.locals == old(c.locals)
    ensures var l := ResponseLoggerFor(old(c.Local(LogLocal)), logger);
      l.writer.records == old(l.writer.records)
        + Emission(l.level, Record(InfoLevel, g.Snapshot(), l.context,
                                   RequestCompleted(CtxRequestInfo(c), old(c.statusCode), old(c.contentLength),
                                                    GetResponseTime(old(c.Local(StartTimeLocal)), nowNanos)),
                                   "request completed"))
  {
    var child := ResponseLoggerFor(c.Local(LogLocal), logger);
    var payload := RequestCompleted(CtxRequestInfo(c), c.statusCode, c.contentLength,
                                    GetResponseTime(c.Local(StartTimeLocal), nowNanos));
    Emit(g, child, InfoLevel, payload, "request completed");

    err := c.Next();
  }

  /**
   * After RequestLogger has run, the locals hold its child logger under "log"
   * and the start time under "startTime". ResponseLogger then writes through
   * that child, so its record carries the request id RequestLogger read,
   * and it reports the time elapsed since the stored start.
   */
  lemma ResponseFollowsRequest(before: map<string, Value>, stored: Value, parent: seq<Field>, id: string,
                               fallback: Logger, startNanos: int, nowNanos: int)
    requires stored.LoggerPtr? && stored.logger != null
    requires stored.logger.context == parent + [StrField("reqId", id)]
    ensures var locals := before[LogLocal := stored][StartTimeLocal := TimeValue(startNanos)];
      var l := ResponseLoggerFor(locals[LogLocal], fallback);
      l == stored.logger && ReqIdOf(l.context) == id
      && GetResponseTime(locals[StartTimeLocal], nowNanos) == NanosOverMillion(nowNanos - startNanos)
  {
  }

  /**
   * Without RequestLogger before it, ResponseLogger writes through its own
   * logger and reports a response time of 0.
   */
  lemma ResponseWithoutRequest(c: Ctx, fallback: Logger, nowNanos: int)
    requires LogLocal !in c.locals && StartTimeLocal !in c.locals
    ensures ResponseLoggerFor(c.Local(LogLocal), fallback) == fallback
    ensures GetResponseTime(c.Local(StartTimeLocal), nowNanos) == ZeroResponseTime
  {
  }
}
