/**
 * The parts of net/http the std and gorillamux middlewares rely on: header
 * lookup by canonical key, requests carrying a context, and response writers
 * that a downstream handler writes through.
 */
module NetHttp {
  import opened Wrappers
  import opened GoStrings
  import opened GoContext

  /** A byte allowed in a header field name (an RFC 7230 token character). */
  predicate IsTokenChar(c: char) {
    ('a' <= c <= 'z') || ('A' <= c <= 'Z') || ('0' <= c <= '9')
    || c in {'!', '#', '$', '%', '&', '\'', '*', '+', '-', '.', '^', '_', '`', '|', '~'}
  }

  predicate IsToken(s: string) {
    forall i :: 0 <= i < |s| ==> IsTokenChar(s[i])
  }

  /**
   * textproto.CanonicalMIMEHeaderKey: the first letter and every letter after
   * a '-' upper-cased, the others lower-cased; a name holding a byte that is
   * not a token character is returned unchanged.
   */
  function CanonicalKey(s: string): (r: string)
    ensures |r| == |s|
    ensures !IsToken(s) ==> r == s
    ensures IsToken(s) ==> forall i :: 0 <= i < |s| ==>
      r[i] == (if i == 0 || s[i - 1] == '-' then UpperChar(s[i]) else LowerChar(s[i]))
  {
    if IsToken(s) then
      seq(|s|, i requires 0 <= i < |s| => if i == 0 || s[i - 1] == '-' then UpperChar(s[i]) else LowerChar(s[i]))
    else s
  }

  /** Two characters equal up to ASCII case agree on everything canonicalisation looks at. */
  lemma SameLowerChar(a: char, b: char)
    requires LowerChar(a) == LowerChar(b)
    ensures UpperChar(a) == UpperChar(b)
    ensures IsTokenChar(a) <==> IsTokenChar(b)
    ensures a == '-' <==> b == '-'
  {
  }

  /**
   * Header names are case-insensitive: token names equal up to ASCII case
   * have one canonical form (a name with a non-token byte is kept verbatim).
   */
  lemma CanonicalKeyIgnoresCase(s: string, t: string)
    requires IsToken(s) && ToLower(s) == ToLower(t)
    ensures CanonicalKey(s) == CanonicalKey(t)
  {
    assert |s| == |t| by {
      assert |ToLower(s)| == |s| && |ToLower(t)| == |t|;
    }
    forall i | 0 <= i < |s|
      ensures LowerChar(s[i]) == LowerChar(t[i])
      ensures UpperChar(s[i]) == UpperChar(t[i])
      ensures IsTokenChar(s[i]) <==> IsTokenChar(t[i])
      ensures s[i] == '-' <==> t[i] == '-'
    {
      assert ToLower(s)[i] == ToLower(t)[i];
      SameLowerChar(s[i], t[i]);
    }
    assert IsToken(t);
    forall i | 0 <= i < |s|
      ensures CanonicalKey(s)[i] == CanonicalKey(t)[i]
    {
    }
  }

  /**
   * An http.Header, keyed by canonical name; each name keeps its first value,
   * which is all Header.Get reads.
   */
  type Header = map<string, string>

  /** Header.Get: the value under the canonical form of `key`, or "" when absent. */
  function HeaderGet(h: Header, key: string): string {
    var k := CanonicalKey(key);
    if k in h then h[k] else ""
  }

  /** Header.Set: replaces the value under the canonical form of `key`. */
  function HeaderSet(h: Header, key: string, value: string): (r: Header)
    ensures HeaderGet(r, key) == value
  {
    h[CanonicalKey(key) := value]
  }

  /** Lookups are case-insensitive. */
  lemma HeaderGetIgnoresCase(h: Header, key: string, other: string)
    requires IsToken(key) && ToLower(key) == ToLower(other)
    ensures HeaderGet(h, key) == HeaderGet(h, other)
  {
    CanonicalKeyIgnoresCase(key, other);
  }

  /** An *http.Request: method, URL.RequestURI(), Host, headers and context. */
  datatype Request = Request(httpMethod: string, requestURI: string, host: string, header: Header, ctx: Context)

  /** Request.UserAgent(). */
  function UserAgent(r: Request): string {
    HeaderGet(r.header, "User-Agent")
  }

  /**
   * The client-side http.ResponseWriter: its header map, the status written
   * (if any), the body bytes written, and the requests handlers have served.
   */
  class ResponseWriter {
    var header: Header
    var status: Option<int>
    var written: nat
    ghost var served: seq<Request>

    constructor ()
      ensures header == map[] && status == None && written == 0 && served == []
    {
      header := map[];
      status := None;
      written := 0;
      served := [];
    }
  }

  /**
   * The readableResponseWriter the std and gorillamux packages wrap the
   * writer in: it remembers the status it forwarded (200 until a handler
   * writes one) and the bytes it forwarded. Header() is the wrapped writer's.
   */
  class ReadableResponseWriter {
    const writer: ResponseWriter
    var statusCode: int
    var length: nat

    constructor (w: ResponseWriter)
      ensures writer == w && statusCode == 200 && length == 0
    {
      writer := w;
      statusCode := 200;
      length := 0;
    }
  }

  /**
   * What a downstream handler does to the response: the headers it sets,
   * the status it writes (if any) and the body bytes it writes.
   */
  datatype Handler = Handler(headerSets: Header, status: Option<int>, bodyBytes: nat)

  /** The handler's response headers merged over the headers already there. */
  function HeadersAfter(h: Handler, before: Header): Header {
    before + h.headerSets
  }

  /** next.ServeHTTP(w, r) with w the wrapping readableResponseWriter. */
  method ServeReadable(h: Handler, rw: ReadableResponseWriter, r: Request)
    modifies rw, rw.writer
    ensures rw.writer.served == old(rw.writer.served) + [r]
    ensures rw.writer.header == HeadersAfter(h, old(rw.writer.header))
    ensures rw.statusCode == (if h.status.Some? then h.status.value else old(rw.statusCode))
    ensures rw.writer.status == (if h.status.Some? then h.status else old(rw.writer.status))
    ensures rw.length == old(rw.length) + h.bodyBytes
    ensures rw.writer.written == old(rw.writer.written) + h.bodyBytes
  {
    rw.writer.served := rw.writer.served + [r];
    rw.writer.header := HeadersAfter(h, rw.writer.header);
    if h.status.Some? {
      rw.statusCode := h.status.value;
      rw.writer.status := h.status;
    }
    rw.length := rw.length + h.bodyBytes;
    rw.writer.written := rw.writer.written + h.bodyBytes;
  }

  /** next.ServeHTTP(w, r) on the bare writer. */
  method Serve(h: Handler, w: ResponseWriter, r: Request)
    modifies w
    ensures w.served == old(w.served) + [r]
    ensures w.header == HeadersAfter(h, old(w.header))
    ensures w.status == (if h.status.Some? then h.status else old(w.status))
    ensures w.written == old(w.written) + h.bodyBytes
  {
    w.served := w.served + [r];
    w.header := HeadersAfter(h, w.header);
    if h.status.Some? {
      w.status := h.status;
    }
    w.written := w.written + h.bodyBytes;
  }
}
