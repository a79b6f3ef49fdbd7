/** The legacy `Token` (src/dwolla/Token.js): the OAuth token of the
    callback-era client, with `get`, `post` and `delete` against the API. */
module TokenLegacy {
  import opened Js
  import opened Http
  import opened Url
  import opened RejectEmptyKeys
  import TokenTs
  import Tokens
  import TokenIntermediate

  /** The fields the constructor copies from its options. */
  datatype LegacyToken = LegacyToken(accessToken: Value, refreshToken: Value, expiresIn: Value, scope: Value, accountId: Value)

  /** `new Token(client, opts)`: reads five snake_case properties; missing
      options are a TypeError. The client is not part of the value. */
  function New(opts: Value): (r: Result<LegacyToken>)
    ensures r.Err? <==> IsNullish(opts)
    ensures opts.Obj? ==> r == Ok(LegacyToken(
              Js.Get(opts.props, "access_token"), Js.Get(opts.props, "refresh_token"),
              Js.Get(opts.props, "expires_in"), Js.Get(opts.props, "scope"), Js.Get(opts.props, "account_id")))
  {
    if IsNullish(opts) then Err(TypeError)
    else Ok(LegacyToken(
      Prop(opts, "access_token").value, Prop(opts, "refresh_token").value,
      Prop(opts, "expires_in").value, Prop(opts, "scope").value, Prop(opts, "account_id").value))
  }

  /** `getHeaders(token, moreHeaders)`: the same defaults as the TypeScript
      tokens, with caller headers assigned over them. */
  function GetHeaders(t: LegacyToken, userAgent: string, more: Dict): (h: Dict)
    ensures h == TokenTs.GetHeaders(Tokens.Token(Tokens.TokenState(t.accessToken, Undefined, Undefined)), userAgent, more)
  {
    Assign([ Entry("Authorization", Str("Bearer " + JoinPart(t.accessToken))),
             Entry("Accept", Str(TokenTs.HalAccept)),
             Entry("User-Agent", Str(userAgent)) ], more)
  }

  /** The query entries `getUrl` encodes: what `RejectEmptyKeysLegacy`
      returns, so an absent query is an empty one. */
  function QueryEntries(query: Value): (d: Dict)
    ensures IsNullish(query) ==> d == []
    ensures query.Obj? ==> d == KeepDefined(query.props)
  {
    KeepDefined(OwnEntries(query).GetOr([]))
  }

  /** `getUrl(token, path, query)`. */
  function GetUrl(apiUrl: string, path: PathLike, query: Value, encode: Dict -> string): (url: string)
    ensures path.Path? ==> Text.StartsWith(url, apiUrl)
    ensures path.Resource? ==> Text.StartsWith(url, path.selfHref)
  {
    WithQuery(ResolvePath(apiUrl, path), encode(QueryEntries(query)))
  }

  /** The legacy URL is the current code's URL: the legacy filter treats an
      absent query as empty, as the current code's `|| {}` fallback does. */
  lemma GetUrlMatchesCurrent(apiUrl: string, path: PathLike, query: Value, encode: Dict -> string)
    ensures GetUrl(apiUrl, path, query, encode) == TokenTs.GetUrl(apiUrl, path, query, encode)
  {
    ResolversAgree(apiUrl, path);
    if Truthy(query) {
      assert Or(query, Obj([])) == query;
    } else {
      assert Or(query, Obj([])) == Obj([]);
      if !IsNullish(query) {
        assert OwnEntries(query) == Some([]);
      }
    }
    assert QueryEntries(query) == TokenTs.QueryEntries(query);
  }

  /** `handleResponse`: the JSON of the text or the text itself; from 400
      up, an error whose message is the raw text. */
  function HandleResponse(raw: RawResponse, parseJson: string -> Option<Value>): (r: Result<Response>)
    ensures r.Ok? <==> raw.status < 400
    ensures r.Ok? ==> r.value.status == raw.status && r.value.headers == raw.headers
    ensures r.Err? ==> r.failure.LegacyResponseError? && r.failure.message == raw.text
    ensures r.Err? ==> r.failure.response.status == raw.status && r.failure.response.headers == raw.headers
    ensures parseJson(raw.text).None? ==> (if r.Ok? then r.value.body else r.failure.response.body) == Str(raw.text)
    ensures parseJson(raw.text).Some? ==> (if r.Ok? then r.value.body else r.failure.response.body) == parseJson(raw.text).value
  {
    var parsed := Response(parseJson(raw.text).GetOr(Str(raw.text)), raw.headers, raw.status);
    if parsed.status >= 400 then Err(LegacyResponseError(raw.text, parsed)) else Ok(parsed)
  }

  function Perform(req: Request, io: TokenTs.Io): Result<Response> {
    match io.fetch(req)
    case None => Err(Transport)
    case Some(raw) => HandleResponse(raw, io.parseJson)
  }

  function Get(apiUrl: string, t: LegacyToken, io: TokenTs.Io, path: PathLike, query: Value, headers: Dict): Result<Response> {
    Perform(Request(GET, GetUrl(apiUrl, path, query, io.encode), GetHeaders(t, io.userAgent, headers), NoPayload), io)
  }

  function Delete(apiUrl: string, t: LegacyToken, io: TokenTs.Io, path: PathLike, query: Value, headers: Dict): Result<Response> {
    Perform(Request(DELETE, GetUrl(apiUrl, path, query, io.encode), GetHeaders(t, io.userAgent, headers), NoPayload), io)
  }

  /** `post`'s headers: a lower-case `content-type` for JSON bodies. */
  function PostHeaders(t: LegacyToken, userAgent: string, body: TokenTs.PostBody, headers: Dict): Dict {
    Assign(GetHeaders(t, userAgent, headers),
      match body
      case FormBody(_, formHeaders) => formHeaders
      case JsonBody(_) => [Entry("content-type", Str("application/json"))])
  }

  function Post(apiUrl: string, t: LegacyToken, io: TokenTs.Io, path: PathLike, body: TokenTs.PostBody, headers: Dict): Result<Response> {
    var payload := match body
      case FormBody(stream, _) => FormDataPayload(stream)
      case JsonBody(v) => JsonPayload(v);
    Perform(Request(POST, GetUrl(apiUrl, path, Undefined, io.encode), PostHeaders(t, io.userAgent, body, headers), payload), io)
  }

  /** A JSON post always sends `content-type: application/json`, even over
      a caller's own lower-case `content-type`; a caller's `Content-Type`
      survives beside it, since the names differ in case. */
  lemma JsonPostContentType(t: LegacyToken, userAgent: string, v: Value, headers: Dict)
    requires UniqueKeys(headers)
    ensures Lookup(PostHeaders(t, userAgent, TokenTs.JsonBody(v), headers), "content-type") == Some(Str("application/json"))
    ensures HasKey(headers, "Content-Type") ==>
              Lookup(PostHeaders(t, userAgent, TokenTs.JsonBody(v), headers), "Content-Type") == Lookup(headers, "Content-Type")
  {
    var extra := [Entry("content-type", Str("application/json"))];
    var base := GetHeaders(t, userAgent, headers);
    AssignLookup(base, extra, "content-type");
    LookupOfEntry(extra, 0);
    AssignLookup(base, extra, "Content-Type");
    TokenTs.HeadersCallerWins(Tokens.Token(Tokens.TokenState(t.accessToken, Undefined, Undefined)), userAgent, headers, "Content-Type");
  }

  /** The legacy and the intermediate client read a reply alike: the same
      success and the same parsed reply, on an error as well; only the
      error's class and message differ. */
  lemma ReadsReplyAsIntermediate(raw: RawResponse, io: TokenTs.Io)
    ensures var legacy := HandleResponse(raw, io.parseJson);
      var mid := TokenIntermediate.Settle(TokenIntermediate.ParseResponse(raw, io));
      (legacy.Ok? <==> mid.Ok?)
      && (legacy.Ok? ==> legacy.value == mid.value)
      && (legacy.Err? ==> legacy.failure.response == mid.failure.response)
  {
  }

  /** A legacy error keeps the raw text both as its message and, when the
      text is not JSON, as its body. */
  lemma ErrorMessageIsRawText(raw: RawResponse, parseJson: string -> Option<Value>)
    requires raw.status >= 400
    ensures HandleResponse(raw, parseJson) ==
              Err(LegacyResponseError(raw.text, Response(parseJson(raw.text).GetOr(Str(raw.text)), raw.headers, raw.status)))
  {
  }

  /** An absent query adds no "?", so `post` (which passes none) and
      query-less calls request the resolved path itself. */
  lemma AbsentQueryAddsNothing(apiUrl: string, path: PathLike, query: Value, encode: Dict -> string)
    requires IsNullish(query) && encode([]) == ""
    ensures GetUrl(apiUrl, path, query, encode) == ResolvePath(apiUrl, path)
  {
  }
}
