/**
 * The gorilla/mux access-log middleware (middlewares/gorillamux/logmiddleware.go):
 * the std middleware's behaviour with lower-case header names (equivalent,
 * since Header.Get canonicalises), the gorillamux logger carrier, and the
 * response time logged as whole milliseconds.
 */
module GorillaMuxLogMiddleware {
  import opened Wrappers
  import opened Zerolog
  import opened GoContext
  import opened NetHttp
  import opened AccessLog
  import MuxContext

  const RequestIdHeaderKey := "X-Request-Id"
  const ForwardedHostHeaderKey := "x-forwarded-host"
  const ForwardedForHeaderKey := "x-forwarded-for"

  /** The request part of both access records. */
  function RequestInfo(r: Request): RequestFields {
    RequestFields(r.httpMethod, HeaderGet(r.header, "user-agent"), r.requestURI, RemovePort(r.host),
                  HeaderGet(r.header, ForwardedHostHeaderKey), HeaderGet(r.header, ForwardedForHeaderKey))
  }

  /** The status a readableResponseWriter reports once the handler is done. */
  function StatusAfter(next: Handler): int {
    if next.status.Some? then next.status.value else 200
  }

  /** getReqID: the request's id, logging through `logger` when one has to be generated. */
  method GetReqID(g: Globals, logger: Logger, headers: Header, gen: UuidResult) returns (requestID: string)
    modifies logger.writer
    ensures requestID == ResolvedRequestId(HeaderGet(headers, RequestIdHeaderKey), gen)
    ensures logger.writer.records == old(logger.writer.records)
      + GetReqIdRecords(logger.level, logger.context, g.Snapshot(), HeaderGet(headers, RequestIdHeaderKey), gen)
  {
    requestID := HeaderGet(headers, RequestIdHeaderKey);
    if requestID != "" {
      return;
    }
    if gen.GenerationFailed? {
      Emit(g, logger, ErrorLevel, ErrorWithStack(gen.reason), "error generating request id");
    }
    requestID := UuidText(gen);
    Emit(g, logger, TraceLevel, GeneratedRequestId(requestID), "generated request id");
  }

  /** logIncoming: a trace record through the logger the context carries. */
  method LogIncoming(g: Globals, carrier: MuxContext.Carrier, ctx: Context, r: Request)
    requires carrier.Get(ctx) != null
    modifies carrier.Get(ctx).writer
    ensures var l := carrier.Get(ctx);
      l.writer.records == old(l.writer.records)
        + Emission(l.level, Record(TraceLevel, g.Snapshot(), l.context, IncomingRequest(RequestInfo(r)), "incoming request"))
  {
    Emit(g, carrier.Get(ctx), TraceLevel, IncomingRequest(RequestInfo(r)), "incoming request");
  }

  /**
   * logOutgoing: an info record with the response status, body size and
   * elapsed time (time.Duration.Milliseconds(), truncated). The source passes
   * the wrapper by value; the values read are the same.
   */
  method LogOutgoing(g: Globals, carrier: MuxContext.Carrier, ctx: Context, r: Request,
                     myw: ReadableResponseWriter, elapsedNanos: nat)
    requires carrier.Get(ctx) != null
    modifies carrier.Get(ctx).writer
    ensures var l := carrier.Get(ctx);
      l.writer.records == old(l.writer.records)
        + Emission(l.level, Record(InfoLevel, g.Snapshot(), l.context,
                                   RequestCompleted(RequestInfo(r), myw.statusCode,
                                                    GetBodyLength(myw.writer.header, myw.length),
                                                    WholeMillis(elapsedNanos / 1000000)),
                                   "request completed"))
  {
    var payload := RequestCompleted(RequestInfo(r), myw.statusCode, GetBodyLength(myw.writer.header, myw.length),
                                    WholeMillis(elapsedNanos / 1000000));
    Emit(g, carrier.Get(ctx), InfoLevel, payload, "request completed");
  }

  /** The handler RequestMiddlewareLogger(logger, excludedPrefix)(next) returns. */
  class RequestMiddlewareLogger {
    const logger: Logger
    const excludedPrefix: seq<string>
    const next: Handler
    const carrier: MuxContext.Carrier

    constructor (logger: Logger, excludedPrefix: seq<string>, next: Handler, carrier: MuxContext.Carrier)
      ensures this.logger == logger && this.excludedPrefix == excludedPrefix
      ensures this.next == next && this.carrier == carrier
    {
      this.logger := logger;
      this.excludedPrefix := excludedPrefix;
      this.next := next;
      this.carrier := carrier;
    }

    /**
     * The logged path of a request that is not excluded: logIncoming, the
     * handler on the wrapping writer, then logOutgoing.
     */
    method LogAround(g: Globals, ctx: Context, r: Request, myw: ReadableResponseWriter, elapsedNanos: nat)
      requires carrier.Get(ctx) != null
      requires myw.statusCode == 200 && myw.length == 0
      modifies carrier.Get(ctx).writer, myw, myw.writer
      ensures var l := carrier.Get(ctx);
        l.writer.records == old(l.writer.records)
          + AccessRecords(l.level, l.context, g.Snapshot(), RequestInfo(r), false, StatusAfter(next),
                          GetBodyLength(HeadersAfter(next, old(myw.writer.header)), next.bodyBytes),
                          WholeMillis(elapsedNanos / 1000000))
      ensures myw.writer.served == old(myw.writer.served) + [r.(ctx := ctx)]
      ensures myw.writer.header == HeadersAfter(next, old(myw.writer.header))
      ensures myw.writer.status == (if next.status.Some? then next.status else old(myw.writer.status))
      ensures myw.writer.written == old(myw.writer.written) + next.bodyBytes
    {
      ghost var l := carrier.Get(ctx);
      ghost var completed := RequestCompleted(RequestInfo(r), StatusAfter(next),
                                              GetBodyLength(HeadersAfter(next, myw.writer.header), next.bodyBytes),
                                              WholeMillis(elapsedNanos / 1000000));
      ghost var incomingRecords := Emission(l.level, Record(TraceLevel, g.Snapshot(), l.context,
                                                            IncomingRequest(RequestInfo(r)), "incoming request"));
      ghost var completedRecords := Emission(l.level, Record(InfoLevel, g.Snapshot(), l.context, completed,
                                                             "request completed"));
      ghost var before := l.writer.records;
      LogIncoming(g, carrier, ctx, r);
      ghost var afterIncoming := l.writer.records;
      assert afterIncoming == before + incomingRecords;
      ServeReadable(next, myw, r.(ctx := ctx));
      assert l.writer.records == afterIncoming;
      assert myw.statusCode == StatusAfter(next);
      assert GetBodyLength(myw.writer.header, myw.length) == completed.bodyBytes;
      LogOutgoing(g, carrier, ctx, r, myw, elapsedNanos);
      assert l.writer.records == afterIncoming + completedRecords;
      assert before + incomingRecords + completedRecords == before + (incomingRecords + completedRecords);
    }

    /**
     * One request. The clock and the UUID source are parameters: the
     * nanoseconds the handler took, and what uuid.NewRandom returns.
     */
    method ServeHTTP(g: Globals, w: ResponseWriter, r: Request, gen: UuidResult, elapsedNanos: nat)
      modifies logger.writer, w
      ensures var id := ResolvedRequestId(HeaderGet(r.header, RequestIdHeaderKey), gen);
        logger.writer.records == old(logger.writer.records)
          + GetReqIdRecords(logger.level, logger.context, g.Snapshot(), HeaderGet(r.header, RequestIdHeaderKey), gen)
          + AccessRecords(logger.level, logger.context + [StrField("reqId", id)], g.Snapshot(), RequestInfo(r),
                          IsExcluded(r.requestURI, excludedPrefix), StatusAfter(next),
                          GetBodyLength(HeadersAfter(next, old(w.header)), next.bodyBytes),
                          WholeMillis(elapsedNanos / 1000000))
      // the handler runs exactly once, whether or not the route is excluded
      ensures |w.served| == |old(w.served)| + 1 && w.served[..|old(w.served)|] == old(w.served)
      // ... on the same request, whose context now yields the child logger
      ensures var served := w.served[|old(w.served)|];
        var child := carrier.Get(served.ctx);
        served == r.(ctx := MuxContext.Carrier.WithLogger(r.ctx, child))
        && child != null && child.level == logger.level && child.writer == logger.writer
        && child.context == logger.context + [StrField("reqId", ResolvedRequestId(HeaderGet(r.header, RequestIdHeaderKey), gen))]
      ensures w.header == HeadersAfter(next, old(w.header))
      ensures w.status == (if next.status.Some? then next.status else old(w.status))
      ensures w.written == old(w.written) + next.bodyBytes
    {
      var requestID := GetReqID(g, logger, r.header, gen);
      var reqLogger := WithStr(logger, "reqId", requestID);
      var ctx := MuxContext.Carrier.WithLogger(r.ctx, reqLogger);
      assert carrier.Get(ctx) == reqLogger;
      var myw := new ReadableResponseWriter(w);
      ghost var idRecords := logger.writer.records;

      var excluded := MatchesExcludedPrefix(r.requestURI, excludedPrefix);
      if excluded {
        // an excluded route is served without access records
        ServeReadable(next, myw, r.(ctx := ctx));
        assert logger.writer.records == idRecords + [];
      } else {
        LogAround(g, ctx, r, myw, elapsedNanos);
      }
    }
  }
}
