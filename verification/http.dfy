/** HTTP exchanges as data. The transport (`node-fetch`) is not modelled:
    a request is a record, and the reply the server gives is an input. */
module Http {
  import opened Js
  import opened Text

  /** Response headers as `node-fetch`'s `Headers` stores them: by
      lower-cased name. */
  type Headers = map<string, string>

  /** `headers.get(name)`: names are matched case-insensitively; `None` is
      the `null` returned for a missing header. */
  function HeaderGet(h: Headers, name: string): (r: Option<string>)
    ensures r.Some? <==> Lower(name) in h
    ensures r.Some? ==> r.value == h[Lower(name)]
  {
    if Lower(name) in h then Some(h[Lower(name)]) else None
  }

  /** Two spellings of a name that differ only in the case of ASCII letters
      (`Location`, `location`, `LOCATION`) read the same header. */
  lemma HeaderGetCaseInsensitive(h: Headers, a: string, b: string)
    requires |a| == |b|
    requires forall i :: 0 <= i < |a| ==> ToLowerChar(a[i]) == ToLowerChar(b[i])
    ensures HeaderGet(h, a) == HeaderGet(h, b)
  {
    assert Lower(a) == Lower(b);
  }

  /** What the server sent back: status, headers and the body as text. */
  datatype RawResponse = RawResponse(status: int, headers: Headers, text: string)

  /** The SDK's `Response`: the body after parsing, with status and headers
      carried over. */
  datatype Response = Response(body: Value, headers: Headers, status: int)

  datatype Verb = GET | POST | DELETE

  /** A request body: none, a value to be `JSON.stringify`-ed, a multipart
      `FormData` stream (opaque), or an already form-urlencoded string. */
  datatype Payload =
    | NoPayload
    | JsonPayload(value: Value)
    | FormDataPayload(stream: nat)
    | EncodedPayload(text: string)

  datatype Request = Request(verb: Verb, url: string, headers: Dict, payload: Payload)

  /** Every way a call can fail. */
  datatype Failure =
    | Transport                                     // a network failure, propagated unchanged
    | TypeError                                     // a property read on undefined/null and the like
    | InvalidJson                                   // `response.json()` rejected
    | ResponseError(response: Response)             // status >= 400 (current code)
    | PlainResponseError(response: Response)        // status >= 400 (intermediate code): a plain `Error`, not a `ResponseError`
    | LegacyResponseError(message: string, response: Response) // status >= 400 (legacy code)
    | DwollaError(message: string)
    | AuthError(error: Value)                       // current `Auth.requestToken`
    | OAuthError(error: Value, description: Value, uri: Value) // legacy token endpoint error
    | Thrown(value: Value)                          // a plain value thrown or rejected with
    | InvariantViolation(message: string)           // the legacy code's `invariant(...)`

  datatype Result<+T> = Ok(value: T) | Err(failure: Failure)

  /** The transport: what the server replies to a request; `None` is a
      network failure, which the SDK lets propagate as `Transport`. */
  type Fetch = Request -> Option<RawResponse>
}
