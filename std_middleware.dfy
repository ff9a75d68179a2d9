/**
 * The net/http access-log middleware (middlewares/std/logmiddleware.go):
 * resolve the request id, derive a child logger carrying it, attach the
 * child to the request context, and log the request around the handler
 * unless its URI starts with an excluded prefix.
 */
module StdLogMiddleware {
  import opened Wrappers
  import opened Zerolog
  import opened GoContext
  import opened NetHttp
  import opened AccessLog
  import StdContext

  const RequestIdHeaderKey := "X-Request-ID"
  const ForwardedHostHeaderKey := "X-Forwarded-Host"
  const ForwardedForHeaderKey := "X-Forwarded-For"

  /** The request part of both access records. */
  function RequestInfo(r: Request): RequestFields {
    RequestFields(r.httpMethod, UserAgent(r), r.requestURI, RemovePort(r.host),
                  HeaderGet(r.header, ForwardedHostHeaderKey), HeaderGet(r.header, ForwardedForHeaderKey))
  }

  /** The status a readableResponseWriter reports once the handler is done. */
  function StatusAfter(next: Handler): int {
    if next.status.Some? then next.status.value else 200
  }

  /** getReqID: the request's id, logging through `logger` when one has to be generated. */
  method GetReqID(g: Globals, logger: Logger, headers: Header, gen: UuidResult) returns (requestID: string)
    modifies logger.writer
    ensures requestID == ResolvedRequestId(HeaderGet(headers, RequestIdHeaderKey), gen)
    ensures logger.writer.records == old(logger.writer.records)
      + GetReqIdRecords(logger.level, logger.context, g.Snapshot(), HeaderGet(headers, RequestIdHeaderKey), gen)
  {
    requestID := HeaderGet(headers, RequestIdHeaderKey);
    if requestID != "" {
      return;
    }
    if gen.GenerationFailed? {
      Emit(g, logger, ErrorLevel, ErrorWithStack(gen.reason), "error generating request id");
    }
    requestID := UuidText(gen);
    Emit(g, logger, TraceLevel, GeneratedRequestId(requestID), "generated request id");
  }

  /** logIncoming: a trace record through the logger the context carries. */
  method LogIncoming(g: Globals, carrier: StdContext.Carrier, ctx: Context, r: Request)
    requires carrier.Get(ctx) != null
    modifies carrier.Get(ctx).writer
    ensures var l := carrier.Get(ctx);
      l.writer.records == old(l.writer.records)
        + Emission(l.level, Record(TraceLevel, g.Snapshot(), l.context, IncomingRequest(RequestInfo(r)), "incoming request"))
  {
    Emit(g, carrier.Get(ctx), TraceLevel, IncomingRequest(RequestInfo(r)), "incoming request");
  }

  /** logOutgoing: an info record with the response status, body size and elapsed time. */
  method LogOutgoing(g: Globals, carrier: StdContext.Carrier, ctx: Context, r: Request,
                     myw: ReadableResponseWriter, elapsedNanos: nat)
    requires carrier.Get(ctx) != null
    modifies carrier.Get(ctx).writer
    ensures var l := carrier.Get(ctx);
      l.writer.records == old(l.writer.records)
        + Emission(l.level, Record(InfoLevel, g.Snapshot(), l.context,
                                   RequestCompleted(RequestInfo(r), myw.statusCode,
                                                    GetBodyLength(myw.writer.header, myw.length),
                                                    NanosOverMillion(elapsedNanos)),
                                   "request completed"))
  {
    var payload := RequestCompleted(RequestInfo(r), myw.statusCode, GetBodyLength(myw.writer.header, myw.length),
                                    NanosOverMillion(elapsedNanos));
    Emit(g, carrier.Get(ctx), InfoLevel, payload, "request completed");
  }

  /** The handler RequestLogger(logger, excludedPrefix)(next) returns. */
  class RequestLogger {
    const logger: Logger
    const excludedPrefix: seq<string>
    const next: Handler
    const carrier: StdContext.Carrier

    constructor (logger: Logger, excludedPrefix: seq<string>, next: Handler, carrier: StdContext.Carrier)
      ensures this.logger == logger && this.excludedPrefix == excludedPrefix
      ensures this.next == next && this.carrier == carrier
    {
      this.logger := logger;
      this.excludedPrefix := excludedPrefix;
      this.next := next;
      this.carrier := carrier;
    }

    /**
     * The logged path of a request that is not excluded: logIncoming, the
     * handler on the wrapping writer, then logOutgoing.
     */
    method LogAround(g: Globals, ctx: Context, r: Request, customRW: ReadableResponseWriter, elapsedNanos: nat)
      requires carrier.Get(ctx) != null
      requires customRW.statusCode == 200 && customRW.length == 0
      modifies carrier.Get(ctx).writer, customRW, customRW.writer
      ensures var l := carrier.Get(ctx);
        l.writer.records == old(l.writer.records)
          + AccessRecords(l.level, l.context, g.Snapshot(), RequestInfo(r), false, StatusAfter(next),
                          GetBodyLength(HeadersAfter(next, old(customRW.writer.header)), next.bodyBytes),
                          NanosOverMillion(elapsedNanos))
      ensures customRW.writer.served == old(customRW.writer.served) + [r.(ctx := ctx)]
      ensures customRW.writer.header == HeadersAfter(next, old(customRW.writer.header))
      ensures customRW.writer.status == (if next.status.Some? then next.status else old(customRW.writer.status))
      ensures customRW.writer.written == old(customRW.writer.written) + next.bodyBytes
    {
      ghost var l := carrier.Get(ctx);
      ghost var completed := RequestCompleted(RequestInfo(r), StatusAfter(next),
                                              GetBodyLength(HeadersAfter(next, customRW.writer.header), next.bodyBytes),
                                              NanosOverMillion(elapsedNanos));
      ghost var incomingRecords := Emission(l.level, Record(TraceLevel, g.Snapshot(), l.context,
                                                            IncomingRequest(RequestInfo(r)), "incoming request"));
      ghost var completedRecords := Emission(l.level, Record(InfoLevel, g.Snapshot(), l.context, completed,
                                                             "request completed"));
      ghost var before := l.writer.records;
      LogIncoming(g, carrier, ctx, r);
      ghost var afterIncoming := l.writer.records;
      assert afterIncoming == before + incomingRecords;
      ServeReadable(next, customRW, r.(ctx := ctx));
      assert l.writer.records == afterIncoming;
      assert customRW.statusCode == StatusAfter(next);
      assert GetBodyLength(customRW.writer.header, customRW.length) == completed.bodyBytes;
      LogOutgoing(g, carrier, ctx, r, customRW, elapsedNanos);
      assert l.writer.records == afterIncoming + completedRecords;
      assert before + incomingRecords + completedRecords == before + (incomingRecords + completedRecords);
    }

    /**
     * One request. The clock and the UUID source are parameters: the
     * nanoseconds the handler took, and what uuid.NewRandom returns.
     */
    method ServeHTTP(g: Globals, w: ResponseWriter, r: Request, gen: UuidResult, elapsedNanos: nat)
      modifies logger.writer, w
      ensures var id := ResolvedRequestId(HeaderGet(r.header, RequestIdHeaderKey), gen);
        logger.writer.records == old(logger.writer.records)
          + GetReqIdRecords(logger.level, logger.context, g.Snapshot(), HeaderGet(r.header, RequestIdHeaderKey), gen)
          + AccessRecords(logger.level, logger.context + [StrField("reqId", id)], g.Snapshot(), RequestInfo(r),
                          IsExcluded(r.requestURI, excludedPrefix), StatusAfter(next),
                          GetBodyLength(HeadersAfter(next, old(w.header)), next.bodyBytes),
                          NanosOverMillion(elapsedNanos))
      // the handler runs exactly once, whether or not the route is excluded
      ensures |w.served| == |old(w.served)| + 1 && w.served[..|old(w.served)|] == old(w.served)
      // ... on the same request, whose context now yields the child logger
      ensures var served := w.served[|old(w.served)|];
        var child := carrier.Get(served.ctx);
        served == r.(ctx := StdContext.Carrier.WithLogger(r.ctx, child))
        && child != null && child.level == logger.level && child.writer == logger.writer
        && child.context == logger.context + [StrField("reqId", ResolvedRequestId(HeaderGet(r.header, RequestIdHeaderKey), gen))]
      ensures w.header == HeadersAfter(next, old(w.header))
      ensures w.status == (if next.status.Some? then next.status else old(w.status))
      ensures w.written == old(w.written) + next.bodyBytes
    {
      var requestID := GetReqID(g, logger, r.header, gen);
      var reqLogger := WithStr(logger, "reqId", requestID);
      var ctx := StdContext.Carrier.WithLogger(r.ctx, reqLogger);
      assert carrier.Get(ctx) == reqLogger;
      var customRW := new ReadableResponseWriter(w);
      ghost var idRecords := logger.writer.records;

      var excluded := MatchesExcludedPrefix(r.requestURI, excludedPrefix);
      if excluded {
        // an excluded route is served without access records
        ServeReadable(next, customRW, r.(ctx := ctx));
        assert logger.writer.records == idRecords + [];
      } else {
        LogAround(g, ctx, r, customRW, elapsedNanos);
      }
    }
  }
}
