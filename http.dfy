/**
 * The service as the export client sees it, reduced to plain data.
 *
 * Every HTTP exchange of the client is a scripted reply: either the request
 * raised (connection error, timeout, an unusable URL) or a response arrived
 * with a status code and a body that may or may not parse as a JSON object.
 * Only the fields the client reads from that object are kept.
 */
module Http {
  import opened Wrappers

  newtype byte = b: int | 0 <= b < 256

  /** The fields the client reads from a JSON response body. */
  datatype Body = Body(id: Option<string>, status: Option<string>, resourceLocation: Option<string>)

  /** A received response; `body` is None when `response.json()` raises. */
  datatype Response = Response(code: int, body: Option<Body>)

  /** The outcome of one request: it raised, or a response came back. */
  datatype Reply = Fault | Got(response: Response)

  /** The outcome of the streamed download request. */
  datatype Stream = StreamFault | Streamed(code: int, chunks: seq<seq<byte>>)

  datatype Verb = Post | Get

  /**
   * A request the client made with a URL, whether or not the call raised.
   * A call with no URL at all (a missing resource location) is not listed.
   */
  datatype Request = Request(verb: Verb, url: string)

  /** Python truthiness of an optional string: neither None nor empty. */
  predicate Truthy(s: Option<string>)
  {
    s.Some? && s.value != ""
  }

  /** `n` identical requests in a row. */
  function Repeat(r: Request, n: nat): (rs: seq<Request>)
    ensures |rs| == n && forall k :: 0 <= k < n ==> rs[k] == r
  {
    seq(n, _ => r)
  }
}
