/**
 * The fiber access-log middleware (middlewares/fiber/middleware.go): the
 * request id comes from the X-Request-ID header or a new UUID, a child
 * logger carrying it is stored in the locals, and the request is logged
 * before and after the rest of the chain, whose error is returned.
 */
module FiberMiddleware {
  import opened Wrappers
  import opened Zerolog
  import opened GoContext
  import opened NetHttp
  import opened AccessLog
  import opened FiberCtx
  import opened FiberLocals
  import Zeropino

  const UserAgentHeaderKey := "User-Agent"
  const RequestIdHeaderKey := "X-Request-ID"
  const ForwardedHostHeaderKey := "X-Forwarded-Host"
  const ForwardedForHeaderKey := "X-Forwarded-For"

  /** The request part of both access records. */
  function RequestInfo(c: Ctx): RequestFields {
    RequestFields(c.httpMethod, c.Get(UserAgentHeaderKey), c.path, RemovePort(c.hostname),
                  c.Get(ForwardedHostHeaderKey), c.Get(ForwardedForHeaderKey))
  }

  /**
   * extractRequestID: the header's id, or the text of a new UUID; a failed
   * generation is logged as an error and no trace record is written.
   */
  method ExtractRequestID(g: Globals, logger: Logger, c: Ctx, gen: UuidResult) returns (requestID: string)
    modifies logger.writer
    ensures requestID == ResolvedRequestId(c.Get(RequestIdHeaderKey), gen)
    ensures logger.writer.records == old(logger.writer.records)
      + GenerationErrorRecords(logger.level, logger.context, g.Snapshot(), c.Get(RequestIdHeaderKey), gen)
  {
    requestID := c.Get(RequestIdHeaderKey);
    if requestID != "" {
      return;
    }
    if gen.GenerationFailed? {
      Emit(g, logger, ErrorLevel, ErrorWithStack(gen.reason), "error generating request id");
    }
    requestID := UuidText(gen);
  }

  /** logIncoming: a trace record through ReqLogger(c). */
  method LogIncoming(g: Globals, p: Zeropino.Process, c: Ctx)
    requires c.Local(LoggerKey) != LoggerPtr(null)
    modifies g, LogTarget(c, p)
    ensures c.Local(LoggerKey).LoggerPtr? ==>
      var l := c.Local(LoggerKey).logger;
      unchanged(g) && l.writer.records == old(l.writer.records)
        + Emission(l.level, Record(TraceLevel, g.Snapshot(), l.context, IncomingRequest(RequestInfo(c)), "incoming request"))
    // the info-level default logger drops the trace record
    ensures !c.Local(LoggerKey).LoggerPtr? ==>
      g.Snapshot() == Zeropino.PinoFormat(false) && p.stdout.records == old(p.stdout.records)
  {
    var l := ReqLogger(c, g, p);
    Emit(g, l, TraceLevel, IncomingRequest(RequestInfo(c)), "incoming request");
  }

  /** logCompleted: an info record with the response status, Content-Length and elapsed time. */
  method LogCompleted(g: Globals, p: Zeropino.Process, c: Ctx, elapsedNanos: nat)
    requires c.Local(LoggerKey) != LoggerPtr(null)
    modifies g, LogTarget(c, p)
    ensures c.Local(LoggerKey).LoggerPtr? ==>
      var l := c.Local(LoggerKey).logger;
      unchanged(g) && l.writer.records == old(l.writer.records)
        + Emission(l.level, Record(InfoLevel, g.Snapshot(), l.context,
                                   RequestCompleted(RequestInfo(c), c.statusCode, c.contentLength,
                                                    NanosOverMillion(elapsedNanos)),
                                   "request completed"))
    ensures !c.Local(LoggerKey).LoggerPtr? ==>
      g.Snapshot() == Zeropino.PinoFormat(false)
      && p.stdout.records == old(p.stdout.records)
        + [Record(InfoLevel, Zeropino.PinoFormat(false), Zeropino.BaseContext(p),
                  RequestCompleted(RequestInfo(c), c.statusCode, c.contentLength, NanosOverMillion(elapsedNanos)),
                  "request completed")]
  {
    var l := ReqLogger(c, g, p);
    var payload := RequestCompleted(RequestInfo(c), c.statusCode, c.contentLength, NanosOverMillion(elapsedNanos));
    Emit(g, l, InfoLevel, payload, "request completed");
  }

  /**
   * The tail of the handler once the child logger is in the locals:
   * logIncoming, c.Next(), logCompleted, returning Next's error.
   */
  method LogAroundNext(g: Globals, p: Zeropino.Process, c: Ctx, elapsedNanos: nat) returns (err: Option<string>)
    requires c.Local(LoggerKey).LoggerPtr? && c.Local(LoggerKey).logger != null
    modifies g, c, c.Local(LoggerKey).logger.writer
    ensures err == c.rest.err && c.nextCalls == old(c.nextCalls) + 1
    ensures c.statusCode == old(c.StatusAfterNext()) && c.contentLength == old(c.ContentLengthAfterNext())
    ensures c.locals == old(c.locals) && unchanged(g)
    ensures var l := c.Local(LoggerKey).logger;
      l.writer.records == old(l.writer.records)
        + AccessRecords(l.level, l.context, g.Snapshot(), RequestInfo(c), false,
                        old(c.StatusAfterNext()), old(c.ContentLengthAfterNext()), NanosOverMillion(elapsedNanos))
  {
    ghost var l := c.Local(LoggerKey).logger;
    ghost var info := RequestInfo(c);
    ghost var before := l.writer.records;
    ghost var incoming := Emission(l.level, Record(TraceLevel, g.Snapshot(), l.context, IncomingRequest(info),
                                                   "incoming request"));
    ghost var completed := Emission(l.level, Record(InfoLevel, g.Snapshot(), l.context,
                                                    RequestCompleted(info, c.StatusAfterNext(), c.ContentLengthAfterNext(),
                                                                     NanosOverMillion(elapsedNanos)),
                                                    "request completed"));
    LogIncoming(g, p, c);
    assert l.writer.records == before + incoming;
    err := c.Next();
    LogCompleted(g, p, c, elapsedNanos);
    assert l.writer.records == before + incoming + completed == before + (incoming + completed);
  }

  /**
   * The handler RequestLogger(l) returns, run on one request. The UUID
   * source and the clock are parameters.
   */
  method RequestLogger(g: Globals, p: Zeropino.Process, l: Logger, c: Ctx, gen: UuidResult, elapsedNanos: nat)
    returns (err: Option<string>)
    modifies g, c, l.writer
    ensures err == c.rest.err && c.nextCalls == old(c.nextCalls) + 1
    ensures c.statusCode == old(c.StatusAfterNext()) && c.contentLength == old(c.ContentLengthAfterNext())
    ensures unchanged(g)
    // the child logger is left in the locals for the rest of the chain
    ensures var id := ResolvedRequestId(c.Get(RequestIdHeaderKey), gen);
      var v := c.Local(LoggerKey);
      c.locals == old(c.locals)[LoggerKey := v]
      && v.LoggerPtr? && v.logger != null && v.logger.level == l.level && v.logger.writer == l.writer
      && v.logger.context == l.context + [StrField("reqId", id)]
    ensures var id := ResolvedRequestId(c.Get(RequestIdHeaderKey), gen);
      l.writer.records == old(l.writer.records)
        + GenerationErrorRecords(l.level, l.context, g.Snapshot(), c.Get(RequestIdHeaderKey), gen)
        + AccessRecords(l.level, l.context + [StrField("reqId", id)], g.Snapshot(), RequestInfo(c), false,
                        old(c.StatusAfterNext()), old(c.ContentLengthAfterNext()), NanosOverMillion(elapsedNanos))
  {
    var requestID := ExtractRequestID(g, l, c, gen);
    var sub := WithStr(l, "reqId", requestID);
    WithLogger(c, sub);
    assert c.Local(LoggerKey) == LoggerPtr(sub);
    err := LogAroundNext(g, p, c, elapsedNanos);
  }
}
