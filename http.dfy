/**
 * The HTTP values the handlers exchange with the Cloudflare Pages runtime:
 * the incoming request, the response they build, and the request they send
 * upstream. Bodies are data, not serialised JSON text.
 */
module Http {
  import opened Optional
  import opened Catalog

  /** An opaque request body, passed through byte for byte. */
  type Bytes = seq<bv8>

  /** A final status `fetch` can report. A null-body status such as 304 cannot carry a text body in `new Response`. */
  type FetchStatus = s: int | 200 <= s <= 599 witness 200

  datatype Header = Header(name: string, value: string)

  /**
   * What the handlers read of a request: its method, the URL's pathname, the
   * value of `headers.get('Authorization')` (None for null) and its body
   * (None for a null body).
   */
  datatype Request = Request(httpMethod: string, path: string, authorization: Option<string>, body: Option<Bytes>)

  datatype Body =
    | Text(text: string)                                 // a plain string body
    | ErrorJson(error: string)                           // {error: ...}
    | StatusJson(status: string, message: string)        // {status: ..., message: ...}
    | ModelList(kind: string, data: seq<OpenAIModel>)    // {object: ..., data: [...]}

  /** A response built by a handler; `headers` are the ones its init object sets. */
  datatype Response = Response(status: int, headers: seq<Header>, body: Body)

  /** A request the proxy sends upstream with `fetch`. */
  datatype Outbound = Outbound(httpMethod: string, url: string, headers: seq<Header>, body: Option<Bytes>)

  /**
   * What a handler resolves to: a response it builds itself, or the response
   * `fetch` gives for an outbound request, which it returns as it is.
   */
  datatype Outcome = Reply(response: Response) | Forward(request: Outbound)

  const MissingCredential := "Authorization header is missing"
  const ContentTypeJson := Header("Content-Type", "application/json")

  /**
   * `!authHeader` is false. `get` yields null or a string, and of those only
   * null and the empty string are falsy in JavaScript.
   */
  predicate HasCredential(authorization: Option<string>)
    ensures authorization == None ==> !HasCredential(authorization)
    ensures authorization == Some("") ==> !HasCredential(authorization)
    ensures authorization.Some? && |authorization.value| > 0 ==> HasCredential(authorization)
  {
    authorization.Some? && authorization.value != ""
  }

  /** The value of the first header with this name; every header list the handlers build has distinct names. */
  function Lookup(headers: seq<Header>, name: string): (value: Option<string>)
    ensures value.None? <==> forall i :: 0 <= i < |headers| ==> headers[i].name != name
    ensures value.Some? ==> exists i :: 0 <= i < |headers| && headers[i] == Header(name, value.value)
  {
    if headers == [] then None
    else if headers[0].name == name then Some(headers[0].value)
    else Lookup(headers[1..], name)
  }

  function Names(headers: seq<Header>): (names: seq<string>)
    ensures |names| == |headers|
    ensures forall i :: 0 <= i < |headers| ==> names[i] == headers[i].name
  {
    if headers == [] then [] else [headers[0].name] + Names(headers[1..])
  }
}
