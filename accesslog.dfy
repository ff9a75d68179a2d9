/**
 * What the access-log middlewares of every package have in common, stated
 * once: the helpers each package repeats verbatim (removePort, getBodyLength,
 * the request-id fallback) and the records one request leaves in the sink.
 */
module AccessLog {
  import opened Wrappers
  import opened GoStrings
  import opened Zerolog
  import opened NetHttp

  /** The text of the zero UUID, which uuid.NewRandom returns with its error. */
  const NilUuid := "00000000-0000-0000-0000-000000000000"

  /** The outcome of uuid.NewRandom(): a UUID in text form, or the entropy source's error. */
  datatype UuidResult = Generated(text: string) | GenerationFailed(reason: string)

  /** requestIDRaw.String(). */
  function UuidText(u: UuidResult): (t: string)
    ensures u.GenerationFailed? ==> t == NilUuid
    ensures u.Generated? ==> t == u.text
  {
    match u
    case Generated(text) => text
    case GenerationFailed(_) => NilUuid
  }

  /** strings.Split(host, ":")[0]: the host up to its first ':'. */
  function RemovePort(host: string): (r: string)
    ensures r <= host
    ensures ':' !in r
    ensures |r| < |host| ==> host[|r|] == ':'
  {
    if host == [] || host[0] == ':' then []
    else [host[0]] + RemovePort(host[1..])
  }

  /** A host without a port is kept as it is. */
  lemma RemovePortKeepsPlainHost(host: string)
    requires ':' !in host
    ensures RemovePort(host) == host
  {
  }

  /** Removing the port twice is removing it once. */
  lemma RemovePortIdempotent(host: string)
    ensures RemovePort(RemovePort(host)) == RemovePort(host)
  {
    RemovePortKeepsPlainHost(RemovePort(host));
  }

  /** "host:port" loses exactly the ":port" part, whatever the port text. */
  lemma RemovePortOfHostAndPort(name: string, port: string)
    requires ':' !in name
    ensures RemovePort(name + ":" + port) == name
  {
    var host := name + ":" + port;
    assert host[|name|] == ':';
    assert forall i :: 0 <= i < |name| ==> host[i] == name[i];
  }

  /**
   * getBodyLength: the Content-Length response header when it is set and
   * parses as an int; otherwise `fallback` (the bytes the wrapper counted,
   * or 0 in the net/http adapter of fiber.go).
   */
  function GetBodyLength(h: Header, fallback: int): (n: int)
    ensures HeaderGet(h, "Content-Length") == "" ==> n == fallback
    ensures Atoi(HeaderGet(h, "Content-Length")).None? ==> n == fallback
    ensures Atoi(HeaderGet(h, "Content-Length")).Some? ==> n == Atoi(HeaderGet(h, "Content-Length")).value
    ensures MinInt64 <= n <= MaxInt64 || n == fallback
  {
    var content := HeaderGet(h, "Content-Length");
    if content != "" then
      match Atoi(content)
      case Some(length) => length
      case None => fallback
    else fallback
  }

  /** A Content-Length header written by strconv.Itoa is read back exactly. */
  lemma GetBodyLengthReadsHeader(h: Header, k: int, fallback: int)
    requires MinInt64 <= k <= MaxInt64
    ensures GetBodyLength(HeaderSet(h, "Content-Length", Itoa(k)), fallback) == k
  {
    AtoiItoa(k);
  }

  /** strings.HasPrefix(uri, p) for some configured prefix: the route is excluded. */
  predicate IsExcluded(uri: string, prefixes: seq<string>) {
    exists j :: 0 <= j < |prefixes| && prefixes[j] <= uri
  }

  /**
   * The middlewares' `for _, prefix := range excludedPrefix` scan: whether
   * the request URI starts with one of the prefixes, found by the first match.
   */
  method MatchesExcludedPrefix(uri: string, prefixes: seq<string>) returns (excluded: bool)
    ensures excluded <==> IsExcluded(uri, prefixes)
  {
    var i := 0;
    while i < |prefixes|
      invariant 0 <= i <= |prefixes|
      invariant forall j :: 0 <= j < i ==> !(prefixes[j] <= uri)
    {
      if prefixes[i] <= uri {
        return true;
      }
      i := i + 1;
    }
    return false;
  }

  /** The id getReqID returns: the X-Request-Id header, or a freshly generated UUID. */
  function ResolvedRequestId(requestIdHeader: string, gen: UuidResult): (id: string)
    ensures requestIdHeader != "" ==> id == requestIdHeader
    ensures requestIdHeader == "" && gen.GenerationFailed? ==> id == NilUuid
    ensures requestIdHeader == "" && gen.Generated? ==> id == gen.text
  {
    if requestIdHeader != "" then requestIdHeader else UuidText(gen)
  }

  /** The error record logged when no id came with the request and generation failed. */
  function GenerationErrorRecords(threshold: Level, context: seq<Field>, fmt: Format,
                                  requestIdHeader: string, gen: UuidResult): (rs: seq<Record>)
    ensures |rs| == (if requestIdHeader == "" && gen.GenerationFailed? && threshold <= ErrorLevel then 1 else 0)
    ensures forall i :: 0 <= i < |rs| ==>
      rs[i] == Record(ErrorLevel, fmt, context, ErrorWithStack(gen.reason), "error generating request id")
  {
    if requestIdHeader == "" && gen.GenerationFailed? then
      Emission(threshold, Record(ErrorLevel, fmt, context, ErrorWithStack(gen.reason), "error generating request id"))
    else []
  }

  /**
   * The records getReqID writes through the parent logger: nothing when the
   * header carries an id; otherwise the error record (if generation failed)
   * followed by the trace record announcing the id, the nil UUID included.
   */
  function GetReqIdRecords(threshold: Level, context: seq<Field>, fmt: Format,
                           requestIdHeader: string, gen: UuidResult): (rs: seq<Record>)
    ensures requestIdHeader != "" ==> rs == []
    ensures |rs| == |GenerationErrorRecords(threshold, context, fmt, requestIdHeader, gen)|
                    + (if requestIdHeader == "" && threshold <= TraceLevel then 1 else 0)
    ensures forall i :: 0 <= i < |rs| ==> rs[i].context == context && rs[i].format == fmt
    ensures forall i :: 0 <= i < |rs| && rs[i].level == TraceLevel ==>
      i == |rs| - 1 && rs[i].payload == GeneratedRequestId(ResolvedRequestId(requestIdHeader, gen))
  {
    if requestIdHeader != "" then []
    else
      GenerationErrorRecords(threshold, context, fmt, requestIdHeader, gen)
      + Emission(threshold, Record(TraceLevel, fmt, context, GeneratedRequestId(UuidText(gen)), "generated request id"))
  }

  /**
   * The fiber middleware's extractRequestID logs only the error: its
   * records are those of getReqID without the trailing trace record.
   */
  lemma ExtractRecordsArePrefix(threshold: Level, context: seq<Field>, fmt: Format,
                                requestIdHeader: string, gen: UuidResult)
    ensures var errs := GenerationErrorRecords(threshold, context, fmt, requestIdHeader, gen);
            var all := GetReqIdRecords(threshold, context, fmt, requestIdHeader, gen);
            errs == all[..|errs|] && (forall i :: |errs| <= i < |all| ==> all[i].level == TraceLevel)
  {
  }

  /**
   * The access log of one request through a logger at `threshold` whose
   * context is `context`: nothing on an excluded route; otherwise the trace
   * "incoming request" record, then the info "request completed" record
   * carrying the response, each kept only when the threshold admits it.
   */
  function AccessRecords(threshold: Level, context: seq<Field>, fmt: Format, request: RequestFields,
                         excluded: bool, status: int, bytes: int, rt: ResponseTime): (rs: seq<Record>)
    ensures |rs| == (if excluded then 0 else if threshold <= TraceLevel then 2 else if threshold <= InfoLevel then 1 else 0)
    ensures forall i :: 0 <= i < |rs| ==> rs[i].context == context && rs[i].format == fmt
    ensures |rs| == 2 ==> rs[0].level == TraceLevel && rs[0].msg == "incoming request"
                          && rs[0].payload == IncomingRequest(request)
    ensures |rs| > 0 ==> rs[|rs| - 1] == Record(InfoLevel, fmt, context,
                                                RequestCompleted(request, status, bytes, rt), "request completed")
  {
    if excluded then []
    else
      Emission(threshold, Record(TraceLevel, fmt, context, IncomingRequest(request), "incoming request"))
      + Emission(threshold, Record(InfoLevel, fmt, context, RequestCompleted(request, status, bytes, rt), "request completed"))
  }

  /** Every access record of a request carries the request id of the child logger. */
  lemma AccessRecordsCarryRequestId(threshold: Level, parent: seq<Field>, id: string, fmt: Format,
                                    request: RequestFields, excluded: bool, status: int, bytes: int, rt: ResponseTime)
    ensures var rs := AccessRecords(threshold, parent + [StrField("reqId", id)], fmt, request, excluded, status, bytes, rt);
            forall i :: 0 <= i < |rs| ==> ReqIdOf(rs[i].context) == id
  {
    var c := parent + [StrField("reqId", id)];
    assert c[|c| - 1] == StrField("reqId", id);
  }
}
