/** The intermediate `Token` (src/token.ts): the same URL and header rules
    as the current one, no class mapping, and a query that is handed to
    `rejectEmptyKeys` without a fallback. */
module TokenIntermediate {
  import opened Js
  import opened Http
  import opened Url
  import opened Tokens
  import TokenTs
  import opened RejectEmptyKeys

  /** `#getUrl(path, query)` as written: `rejectEmptyKeys(suppliedQuery)`
      runs `Object.entries` on the query itself, which throws a TypeError
      when the query is absent. */
  function RequestUrl(apiUrl: string, path: PathLike, query: Value, encode: Dict -> string): (r: Result<string>)
    ensures r.Err? <==> IsNullish(query)
    ensures r.Err? ==> r.failure == TypeError
    ensures r.Ok? && path.Path? ==> Text.StartsWith(r.value, apiUrl)
  {
    match RejectEmptyKeys.RejectEmptyKeys(query)
    case None => Err(TypeError)
    case Some(entries) => Ok(WithQuery(ResolvePath(apiUrl, path), encode(entries)))
  }

  /** Whenever the URL is built at all, it is the URL the current code
      builds, which defaults a missing query to `{}`. */
  lemma RequestUrlAgreesWithDefaulted(apiUrl: string, path: PathLike, query: Value, encode: Dict -> string)
    ensures RequestUrl(apiUrl, path, query, encode).Ok? ==>
              RequestUrl(apiUrl, path, query, encode).value == TokenTs.GetUrl(apiUrl, path, query, encode)
  {
    ResolversAgree(apiUrl, path);
    if !IsNullish(query) && !Truthy(query) {
      assert OwnEntries(query) == Some([]);
    }
  }

  /** `#parseResponse`: the JSON of the text, or the text itself. */
  function ParseResponse(raw: RawResponse, io: TokenTs.Io): (p: Response)
    ensures p.status == raw.status && p.headers == raw.headers
    ensures io.parseJson(raw.text).None? ==> p.body == Str(raw.text)
    ensures io.parseJson(raw.text).Some? ==> p.body == io.parseJson(raw.text).value
  {
    Response(io.parseJson(raw.text).GetOr(Str(raw.text)), raw.headers, raw.status)
  }

  /** The status check: `#errorFrom` builds a plain `Error` and copies body,
      headers and status of the parsed reply onto it. */
  function Settle(p: Response): (r: Result<Response>)
    ensures r.Ok? <==> p.status < 400
    ensures r.Ok? ==> r.value == p
    ensures r.Err? ==> r.failure == PlainResponseError(p)
  {
    if p.status >= 400 then Err(PlainResponseError(p)) else Ok(p)
  }

  /** A current-client result as the intermediate client reports it: the
      `ResponseError` becomes the plain error carrying the same reply. */
  function AsPlainError(r: Result<Response>): Result<Response> {
    if r.Err? && r.failure.ResponseError? then Err(PlainResponseError(r.failure.response)) else r
  }

  /** Without a mapping target the current and the intermediate client read
      a reply alike: the same parsed reply, the same success, and on an
      error the same reply, thrown as a `ResponseError` by one and as a plain
      `Error` by the other. */
  lemma ReadsReplyAsCurrent(raw: RawResponse, io: TokenTs.Io)
    ensures TokenTs.ParseResponse(raw, None, io).parsed == ParseResponse(raw, io)
    ensures Settle(ParseResponse(raw, io)) == AsPlainError(TokenTs.Settle(TokenTs.ParseResponse(raw, None, io)))
  {
  }

  function Perform(req: Request, io: TokenTs.Io): Result<Response> {
    match io.fetch(req)
    case None => Err(Transport)
    case Some(raw) => Settle(ParseResponse(raw, io))
  }

  /** Send `verb` to the URL if it can be built; the URL is computed before
      `fetch` is called, so a failure there sends nothing. */
  function Send(verb: Verb, url: Result<string>, headers: Dict, payload: Payload, io: TokenTs.Io): Result<Response> {
    match url
    case Err(f) => Err(f)
    case Ok(u) => Perform(Request(verb, u, headers, payload), io)
  }

  function Get(apiUrl: string, t: Token, io: TokenTs.Io, path: PathLike, query: Value, headers: Dict): Result<Response> {
    Send(GET, RequestUrl(apiUrl, path, query, io.encode), TokenTs.GetHeaders(t, io.userAgent, headers), NoPayload, io)
  }

  function Delete(apiUrl: string, t: Token, io: TokenTs.Io, path: PathLike, query: Value, headers: Dict): Result<Response> {
    Send(DELETE, RequestUrl(apiUrl, path, query, io.encode), TokenTs.GetHeaders(t, io.userAgent, headers), NoPayload, io)
  }

  /** `post`'s headers: `Object.assign(getHeaders(headers), extra)`. */
  function PostHeaders(t: Token, userAgent: string, body: TokenTs.PostBody, headers: Dict): Dict {
    Assign(TokenTs.GetHeaders(t, userAgent, headers),
      match body
      case FormBody(_, formHeaders) => formHeaders
      case JsonBody(_) => [Entry("Content-Type", Str("application/json"))])
  }

  function PostPayload(body: TokenTs.PostBody): Payload {
    match body
    case FormBody(stream, _) => FormDataPayload(stream)
    case JsonBody(v) => JsonPayload(v)
  }

  /** `post` as written: `#getUrl(path)` passes no query. */
  function Post(apiUrl: string, t: Token, io: TokenTs.Io, path: PathLike, body: TokenTs.PostBody, headers: Dict): Result<Response> {
    Send(POST, RequestUrl(apiUrl, path, Undefined, io.encode), PostHeaders(t, io.userAgent, body, headers), PostPayload(body), io)
  }

  /** Every `post` fails with a TypeError before anything is sent. */
  lemma PostAlwaysRejects(apiUrl: string, t: Token, io: TokenTs.Io, path: PathLike, body: TokenTs.PostBody, headers: Dict)
    ensures Post(apiUrl, t, io, path, body, headers) == Err(TypeError)
  {
  }

  /** So do `get` and `delete` called without a query. */
  lemma QuerylessCallsReject(apiUrl: string, t: Token, io: TokenTs.Io, path: PathLike, query: Value, headers: Dict)
    requires IsNullish(query)
    ensures Get(apiUrl, t, io, path, query, headers) == Err(TypeError)
    ensures Delete(apiUrl, t, io, path, query, headers) == Err(TypeError)
  {
  }

  /** The corrected `post`: the query defaults to `{}`, as in the current
      code. */
  function PostDefaulted(apiUrl: string, t: Token, io: TokenTs.Io, path: PathLike, body: TokenTs.PostBody, headers: Dict): Result<Response> {
    Perform(Request(POST, TokenTs.GetUrl(apiUrl, path, Undefined, io.encode), PostHeaders(t, io.userAgent, body, headers), PostPayload(body)), io)
  }

  /** The corrected `post` reaches the server, at the resolved path with no
      query string, and returns what the server's reply settles to. */
  lemma PostDefaultedSends(apiUrl: string, t: Token, io: TokenTs.Io, path: PathLike, body: TokenTs.PostBody, headers: Dict, raw: RawResponse)
    requires TokenTs.EncodesEmptyAsEmpty(io)
    requires io.fetch(Request(POST, ResolvePath(apiUrl, path), PostHeaders(t, io.userAgent, body, headers), PostPayload(body))) == Some(raw)
    ensures PostDefaulted(apiUrl, t, io, path, body, headers) == Settle(ParseResponse(raw, io))
  {
    TokenTs.GetUrlShape(apiUrl, path, Undefined, io.encode);
  }

  /** Given a query, `get` behaves as the current code's unmapped `get`. */
  lemma GetMatchesCurrentWhenQueryGiven(apiUrl: string, t: Token, io: TokenTs.Io, path: PathLike, query: Value, headers: Dict)
    requires !IsNullish(query)
    ensures Get(apiUrl, t, io, path, query, headers) == AsPlainError(TokenTs.Get(apiUrl, t, io, path, query, headers, None))
  {
    RequestUrlAgreesWithDefaulted(apiUrl, path, query, io.encode);
  }

  /** An error reply keeps its text as the body when it is not JSON. */
  lemma ErrorKeepsText(raw: RawResponse, io: TokenTs.Io)
    requires raw.status >= 400 && io.parseJson(raw.text).None?
    ensures Settle(ParseResponse(raw, io)) == Err(PlainResponseError(Response(Str(raw.text), raw.headers, raw.status)))
  {
  }
}
