/**
 * The parts of a *fiber.Ctx the fiber middlewares use: request method,
 * path, hostname and headers; the per-request locals; the response status
 * and Content-Length; and Next, which runs the rest of the handler chain.
 */
module FiberCtx {
  import opened Wrappers
  import opened GoContext
  import opened NetHttp

  /**
   * What the rest of the chain does when Next runs it: the status and the
   * Content-Length it leaves on the response (if it sets them) and the error
   * it returns. It does not touch the locals.
   */
  datatype Downstream = Downstream(status: Option<int>, contentLength: Option<int>, err: Option<string>)

  class Ctx {
    const httpMethod: string
    const path: string
    const hostname: string
    const header: Header
    const rest: Downstream
    var locals: map<string, Value>
    var statusCode: int
    var contentLength: int
    ghost var nextCalls: nat

    /** A fresh request: no locals, status 200, no body yet. */
    constructor (httpMethod: string, path: string, hostname: string, header: Header, rest: Downstream)
      ensures this.httpMethod == httpMethod && this.path == path && this.hostname == hostname
      ensures this.header == header && this.rest == rest
      ensures locals == map[] && statusCode == 200 && contentLength == 0 && nextCalls == 0
    {
      this.httpMethod := httpMethod;
      this.path := path;
      this.hostname := hostname;
      this.header := header;
      this.rest := rest;
      locals := map[];
      statusCode := 200;
      contentLength := 0;
      nextCalls := 0;
    }

    /** c.Get(key): a request header, looked up case-insensitively; "" when absent. */
    function Get(key: string): string {
      HeaderGet(header, key)
    }

    /** c.Locals(key): the value stored under key, or nil. */
    function Local(key: string): Value
      reads this
    {
      if key in locals then locals[key] else UntypedNil
    }

    /** c.Locals(key, v): stores v under key for the rest of the request. */
    method SetLocal(key: string, v: Value)
      modifies this
      ensures locals == old(locals)[key := v]
      ensures Local(key) == v && forall k :: k != key ==> Local(k) == old(Local(k))
      ensures statusCode == old(statusCode) && contentLength == old(contentLength) && nextCalls == old(nextCalls)
    {
      locals := locals[key := v];
    }

    /** The status the response has once the rest of the chain has run. */
    function StatusAfterNext(): int
      reads this
    {
      if rest.status.Some? then rest.status.value else statusCode
    }

    /** The Content-Length the response has once the rest of the chain has run. */
    function ContentLengthAfterNext(): int
      reads this
    {
      if rest.contentLength.Some? then rest.contentLength.value else contentLength
    }

    /** c.Next(): runs the rest of the chain once and returns its error. */
    method Next() returns (err: Option<string>)
      modifies this
      ensures err == rest.err
      ensures nextCalls == old(nextCalls) + 1
      ensures statusCode == old(StatusAfterNext()) && contentLength == old(ContentLengthAfterNext())
      ensures locals == old(locals)
    {
      nextCalls := nextCalls + 1;
      statusCode := StatusAfterNext();
      contentLength := ContentLengthAfterNext();
      err := rest.err;
    }
  }
}
