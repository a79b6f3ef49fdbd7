/** The current `Token` (src/Token.ts): builds each request's URL and
    headers, parses the reply, optionally maps it onto a model class, and
    turns statuses from 400 up into a `ResponseError`. */
module TokenTs {
  import opened Js
  import opened Text
  import opened Http
  import opened Url
  import opened Tokens
  import opened RejectEmptyKeys

  const HalAccept := "application/vnd.dwolla.v1.hal+json"
  const MissingLocation := "Cannot follow URL, Location header is missing"

  /** `deserializeAs`: a model class or an instance to fill. Either is
      truthy, so only its presence matters to the pipeline. */
  datatype Target = Target(id: nat)

  /** The foreign code a token relies on. */
  datatype Io = Io(
    fetch: Fetch,
    parseJson: string -> Option<Value>,        // JSON.parse; None when it throws
    project: (Target, Value) -> Option<Value>, // class-transformer; None when it throws
    encode: Dict -> string,                    // formUrlEncoded with flat keys
    userAgent: string)

  /** The form encoder turns an empty object into the empty string. */
  predicate EncodesEmptyAsEmpty(io: Io) {
    io.encode([]) == ""
  }

  function DefaultHeaders(t: Token, userAgent: string): (h: Dict)
    ensures Keys(h) == ["Authorization", "Accept", "User-Agent"]
  {
    [ Entry("Authorization", Str("Bearer " + JoinPart(t.state.accessToken))),
      Entry("Accept", Str(HalAccept)),
      Entry("User-Agent", Str(userAgent)) ]
  }

  /** `getHeaders(additionalHeaders)`: `{...defaults, ...additionalHeaders}`;
      an absent argument is the empty list. The three defaults stay first. */
  function GetHeaders(t: Token, userAgent: string, additional: Dict): (h: Dict)
    ensures |h| >= 3 && Keys(h)[..3] == ["Authorization", "Accept", "User-Agent"]
  {
    AssignKeepsTargetKeysFirst(DefaultHeaders(t, userAgent), additional);
    Assign(DefaultHeaders(t, userAgent), additional)
  }

  /** Caller headers win every key they set; every other key keeps its
      default: a bearer `Authorization`, the HAL `Accept`, the user agent. */
  lemma HeadersCallerWins(t: Token, userAgent: string, additional: Dict, k: string)
    requires UniqueKeys(additional)
    ensures HasKey(additional, k) ==> Lookup(GetHeaders(t, userAgent, additional), k) == Lookup(additional, k)
    ensures !HasKey(additional, k) && k == "Authorization" ==>
              Lookup(GetHeaders(t, userAgent, additional), k) == Some(Str("Bearer " + JoinPart(t.state.accessToken)))
    ensures !HasKey(additional, k) && k == "Accept" ==>
              Lookup(GetHeaders(t, userAgent, additional), k) == Some(Str(HalAccept))
    ensures !HasKey(additional, k) && k == "User-Agent" ==>
              Lookup(GetHeaders(t, userAgent, additional), k) == Some(Str(userAgent))
  {
    var h := DefaultHeaders(t, userAgent);
    AssignLookup(h, additional, k);
    DefaultHeadersLookup(t, userAgent);
  }

  lemma DefaultHeadersLookup(t: Token, userAgent: string)
    ensures Lookup(DefaultHeaders(t, userAgent), "Authorization") == Some(Str("Bearer " + JoinPart(t.state.accessToken)))
    ensures Lookup(DefaultHeaders(t, userAgent), "Accept") == Some(Str(HalAccept))
    ensures Lookup(DefaultHeaders(t, userAgent), "User-Agent") == Some(Str(userAgent))
  {
    var h := DefaultHeaders(t, userAgent);
    var rest := [Entry("Accept", Str(HalAccept)), Entry("User-Agent", Str(userAgent))];
    var last := [Entry("User-Agent", Str(userAgent))];
    assert h[1..] == rest && rest[1..] == last;
    assert "Authorization"[1] != "Accept"[1] && "Authorization"[0] != "User-Agent"[0] && "Accept"[0] != "User-Agent"[0];
    assert Lookup(h, "Accept") == Lookup(rest, "Accept");
    assert Lookup(h, "User-Agent") == Lookup(rest, "User-Agent") == Lookup(last, "User-Agent");
  }

  /** The entries `getUrl` encodes: `rejectEmptyKeys(suppliedQuery || {})`.
      The fallback is truthy, so `Object.entries` never throws here. */
  function QueryEntries(query: Value): (d: Dict)
    ensures forall e :: e in d ==> !IsNullish(e.value)
    ensures !Truthy(query) ==> d == []
    ensures query.Obj? ==> d == KeepDefined(query.props)
  {
    RejectEmptyKeys.RejectEmptyKeys(Or(query, Obj([]))).value
  }

  /** `getUrl(path, query)`. */
  function GetUrl(apiUrl: string, path: PathLike, query: Value, encode: Dict -> string): (url: string)
    ensures path.Path? ==> StartsWith(url, apiUrl)
    ensures path.Resource? ==> StartsWith(url, path.selfHref)
  {
    var resolved := ResolvePathByIndexOf(apiUrl, path);
    ResolversAgree(apiUrl, path);
    WithQuery(resolved, encode(QueryEntries(query)))
  }

  /** Without a query string the URL is exactly the resolved path; with
      one, it is the path, "?" and the encoding of the defined entries. */
  lemma GetUrlShape(apiUrl: string, path: PathLike, query: Value, encode: Dict -> string)
    ensures encode(QueryEntries(query)) == "" ==> GetUrl(apiUrl, path, query, encode) == ResolvePath(apiUrl, path)
    ensures encode(QueryEntries(query)) != "" ==>
              GetUrl(apiUrl, path, query, encode) == ResolvePath(apiUrl, path) + "?" + encode(QueryEntries(query))
  {
    ResolversAgree(apiUrl, path);
  }

  /** A parsed reply, and the pre-mapping reply kept when a target is
      given. */
  datatype Parsed = Parsed(parsed: Response, unmapped: Option<Response>)

  /** `parseResponse(response, deserializeOptions)`. */
  function ParseResponse(raw: RawResponse, target: Option<Target>, io: Io): (p: Parsed)
    ensures p.parsed.status == raw.status && p.parsed.headers == raw.headers
    ensures target.None? <==> p.unmapped.None?
    ensures p.unmapped.Some? ==> p.unmapped.value.status == raw.status && p.unmapped.value.headers == raw.headers
    ensures p.unmapped.Some? ==> p.unmapped.value.body == io.parseJson(raw.text).GetOr(Undefined)
    ensures io.parseJson(raw.text).None? ==> p.parsed.body == Str(raw.text)
    ensures io.parseJson(raw.text).Some? && target.None? ==> p.parsed.body == io.parseJson(raw.text).value
    ensures io.parseJson(raw.text).Some? && target.Some? && io.project(target.value, io.parseJson(raw.text).value).Some? ==>
              p.parsed.body == io.project(target.value, io.parseJson(raw.text).value).value
    ensures io.parseJson(raw.text).Some? && target.Some? && io.project(target.value, io.parseJson(raw.text).value).None? ==>
              p.parsed.body == Str(raw.text)
  {
    var json := io.parseJson(raw.text);
    var bodies :=
      match json
      case None => (Str(raw.text), Undefined)
      case Some(v) =>
        match target
        case None => (v, Undefined)
        case Some(t) =>
          match io.project(t, v)
          case None => (Str(raw.text), v)
          case Some(mapped) => (mapped, v);
    Parsed(
      Response(bodies.0, raw.headers, raw.status),
      if target.Some? then Some(Response(bodies.1, raw.headers, raw.status)) else None)
  }

  /** The status check every verb applies to the parsed reply:
      `if (status >= 400) throw new ResponseError(unmappedResponse ?? parsedResponse)`. */
  function Settle(p: Parsed): (r: Result<Response>)
    ensures r.Ok? <==> p.parsed.status < 400
    ensures r.Ok? ==> r.value == p.parsed
    ensures r.Err? && p.unmapped.Some? ==> r.failure == ResponseError(p.unmapped.value)
    ensures r.Err? && p.unmapped.None? ==> r.failure == ResponseError(p.parsed)
  {
    if p.parsed.status >= 400 then Err(ResponseError(p.unmapped.GetOr(p.parsed))) else Ok(p.parsed)
  }

  /** Send a request and settle the reply; a transport failure propagates
      unchanged. */
  function Perform(req: Request, target: Option<Target>, io: Io): Result<Response> {
    match io.fetch(req)
    case None => Err(Transport)
    case Some(raw) => Settle(ParseResponse(raw, target, io))
  }

  function GetRequest(apiUrl: string, t: Token, io: Io, path: PathLike, query: Value, headers: Dict): Request {
    Request(GET, GetUrl(apiUrl, path, query, io.encode), GetHeaders(t, io.userAgent, headers), NoPayload)
  }

  function DeleteRequest(apiUrl: string, t: Token, io: Io, path: PathLike, query: Value, headers: Dict): Request {
    Request(DELETE, GetUrl(apiUrl, path, query, io.encode), GetHeaders(t, io.userAgent, headers), NoPayload)
  }

  /** A POST body: a `FormData` stream with the headers it reports, or any
      other value, sent as JSON. */
  datatype PostBody = FormBody(stream: nat, formHeaders: Dict) | JsonBody(value: Value)

  /** The headers `post` adds after the token headers: the form's own, or a
      JSON content type. */
  function PostExtraHeaders(body: PostBody): Dict {
    match body
    case FormBody(_, formHeaders) => formHeaders
    case JsonBody(_) => [Entry("Content-Type", Str("application/json"))]
  }

  /** Whatever the caller's headers say, a JSON post declares its content
      type. */
  lemma JsonContentTypeWins(h: Dict, body: PostBody)
    ensures body.JsonBody? ==> Lookup(Assign(h, PostExtraHeaders(body)), "Content-Type") == Some(Str("application/json"))
  {
    if body.JsonBody? {
      AssignLookup(h, PostExtraHeaders(body), "Content-Type");
    }
  }

  /** `post`'s request: no query, the token headers followed by the form's
      own headers or a JSON content type; the form stream or the JSON
      value as the payload. */
  function PostRequest(apiUrl: string, t: Token, io: Io, path: PathLike, body: PostBody, headers: Dict): (req: Request)
    ensures req.verb == POST
    ensures path.Path? ==> StartsWith(req.url, apiUrl)
    ensures path.Resource? ==> StartsWith(req.url, path.selfHref)
    ensures body.FormBody? ==> req.payload == FormDataPayload(body.stream)
    ensures body.JsonBody? ==> req.payload == JsonPayload(body.value)
    ensures body.JsonBody? ==> Lookup(req.headers, "Content-Type") == Some(Str("application/json"))
  {
    var payload := match body
      case FormBody(stream, _) => FormDataPayload(stream)
      case JsonBody(v) => JsonPayload(v);
    var h := GetHeaders(t, io.userAgent, headers);
    JsonContentTypeWins(h, body);
    Request(POST, GetUrl(apiUrl, path, Undefined, io.encode), Assign(h, PostExtraHeaders(body)), payload)
  }

  /** A form's own headers (its multipart content type) override the
      caller's and the token's. */
  lemma PostFormHeadersWin(apiUrl: string, t: Token, io: Io, path: PathLike, body: PostBody, headers: Dict, k: string)
    requires body.FormBody? && UniqueKeys(body.formHeaders) && HasKey(body.formHeaders, k)
    ensures Lookup(PostRequest(apiUrl, t, io, path, body, headers).headers, k) == Lookup(body.formHeaders, k)
  {
    AssignLookup(GetHeaders(t, io.userAgent, headers), body.formHeaders, k);
  }

  function Get(apiUrl: string, t: Token, io: Io, path: PathLike, query: Value, headers: Dict, target: Option<Target>): Result<Response> {
    Perform(GetRequest(apiUrl, t, io, path, query, headers), target, io)
  }

  function Delete(apiUrl: string, t: Token, io: Io, path: PathLike, query: Value, headers: Dict, target: Option<Target>): Result<Response> {
    Perform(DeleteRequest(apiUrl, t, io, path, query, headers), target, io)
  }

  function Post(apiUrl: string, t: Token, io: Io, path: PathLike, body: PostBody, headers: Dict, target: Option<Target>): Result<Response> {
    Perform(PostRequest(apiUrl, t, io, path, body, headers), target, io)
  }

  /** `follow(response)`: GET the `Location` the reply points to, with no
      query and no extra headers. */
  function Follow(apiUrl: string, t: Token, io: Io, response: Response, target: Option<Target>): Result<Response> {
    match HeaderGet(response.headers, "Location")
    case None => Err(DwollaError(MissingLocation))
    case Some(location) =>
      if location == "" then Err(DwollaError(MissingLocation))
      else Get(apiUrl, t, io, Path(location), Undefined, [], target)
  }

  /** `postFollow`: in test mode the POST's own result; otherwise POST
      without mapping, then follow the `Location` with the mapping. */
  function PostFollow(apiUrl: string, t: Token, io: Io, testMode: bool, path: PathLike, body: PostBody, headers: Dict, target: Option<Target>): Result<Response> {
    if testMode then Post(apiUrl, t, io, path, body, headers, target)
    else
      match Post(apiUrl, t, io, path, body, headers, None)
      case Err(f) => Err(f)
      case Ok(created) => Follow(apiUrl, t, io, created, target)
  }

  /** Only a resource object can send the token to another host: every
      string path resolves under the API root. */
  lemma OnlyResourcesLeaveApiHost(apiUrl: string, t: Token, io: Io, path: PathLike, query: Value, headers: Dict)
    ensures !StartsWith(GetRequest(apiUrl, t, io, path, query, headers).url, apiUrl) ==> path.Resource?
  {
  }

  /** A POST never carries a query string. */
  lemma PostCarriesNoQuery(apiUrl: string, t: Token, io: Io, path: PathLike, body: PostBody, headers: Dict)
    requires EncodesEmptyAsEmpty(io)
    ensures PostRequest(apiUrl, t, io, path, body, headers).url == ResolvePath(apiUrl, path)
  {
    GetUrlShape(apiUrl, path, Undefined, io.encode);
  }

  /** A verb fails on the reply exactly when its status is 400 or more, and
      the error it throws reports the server's own status and headers. */
  lemma ErrorReportsServerReply(raw: RawResponse, target: Option<Target>, io: Io)
    ensures var r := Settle(ParseResponse(raw, target, io));
      (r.Err? <==> raw.status >= 400)
      && (r.Err? ==> r.failure.ResponseError? && r.failure.response.status == raw.status && r.failure.response.headers == raw.headers)
  {
  }

  /** With a mapping target, an error reply whose text is JSON carries the
      server's JSON unfiltered, whatever the projection made of it. */
  lemma ErrorKeepsUnmappedJson(raw: RawResponse, target: Target, io: Io)
    requires raw.status >= 400
    requires io.parseJson(raw.text).Some?
    ensures Settle(ParseResponse(raw, Some(target), io)) ==
              Err(ResponseError(Response(io.parseJson(raw.text).value, raw.headers, raw.status)))
  {
  }

  /** With a mapping target, an error reply whose text is not JSON carries
      an undefined body: the raw text is lost. */
  lemma ErrorDropsTextWithTarget(raw: RawResponse, target: Target, io: Io)
    requires raw.status >= 400
    requires io.parseJson(raw.text).None?
    ensures Settle(ParseResponse(raw, Some(target), io)) ==
              Err(ResponseError(Response(Undefined, raw.headers, raw.status)))
  {
  }

  /** Without a target, a reply that is not JSON keeps its text as the body. */
  lemma TextBodyVerbatim(raw: RawResponse, io: Io)
    requires io.parseJson(raw.text).None?
    ensures ParseResponse(raw, None, io) == Parsed(Response(Str(raw.text), raw.headers, raw.status), None)
  {
  }

  /** A successful mapped reply whose projection throws falls back to the
      raw text, while the unmapped reply keeps the parsed JSON. */
  lemma ProjectionFailureFallsBackToText(raw: RawResponse, target: Target, io: Io)
    requires io.parseJson(raw.text).Some?
    requires io.project(target, io.parseJson(raw.text).value).None?
    ensures ParseResponse(raw, Some(target), io).parsed.body == Str(raw.text)
    ensures ParseResponse(raw, Some(target), io).unmapped.value.body == io.parseJson(raw.text).value
  {
  }

  /** A reply with a non-empty `Location` is followed by a GET of that
      location with the default headers and no body; a location under the
      API root is requested verbatim. */
  lemma FollowGetsLocation(apiUrl: string, t: Token, io: Io, response: Response, target: Option<Target>, location: string)
    requires EncodesEmptyAsEmpty(io)
    requires HeaderGet(response.headers, "Location") == Some(location) && location != ""
    requires StartsWith(location, apiUrl)
    ensures Follow(apiUrl, t, io, response, target) ==
              Perform(Request(GET, location, DefaultHeaders(t, io.userAgent), NoPayload), target, io)
  {
    GetUrlShape(apiUrl, Path(location), Undefined, io.encode);
  }

  /** Whatever `Location` the reply carries, `follow` resolves it as a path
      against the API root: the request it sends begins with `apiUrl`. */
  lemma FollowResolvesAgainstApiRoot(apiUrl: string, t: Token, io: Io, response: Response, target: Option<Target>)
    requires HeaderGet(response.headers, "Location").Some?
    requires HeaderGet(response.headers, "Location").value != ""
    ensures var req := GetRequest(apiUrl, t, io, Path(HeaderGet(response.headers, "Location").value), Undefined, []);
      Follow(apiUrl, t, io, response, target) == Perform(req, target, io) && StartsWith(req.url, apiUrl)
  {
  }

  /** A reply without a usable `Location` cannot be followed. */
  lemma FollowNeedsLocation(apiUrl: string, t: Token, io: Io, response: Response, target: Option<Target>)
    requires HeaderGet(response.headers, "Location") in {None, Some("")}
    ensures Follow(apiUrl, t, io, response, target) == Err(DwollaError(MissingLocation))
  {
  }

  /** In test mode `postFollow` returns the POST's own, mapped result. */
  lemma PostFollowInTestMode(apiUrl: string, t: Token, io: Io, path: PathLike, body: PostBody, headers: Dict, target: Option<Target>)
    ensures PostFollow(apiUrl, t, io, true, path, body, headers, target) == Post(apiUrl, t, io, path, body, headers, target)
  {
  }

  /** Otherwise a successful unmapped POST is followed with the mapping,
      and a failed one is reported as it is. */
  lemma PostFollowOutsideTests(apiUrl: string, t: Token, io: Io, path: PathLike, body: PostBody, headers: Dict, target: Option<Target>)
    ensures Post(apiUrl, t, io, path, body, headers, None).Ok? ==>
              PostFollow(apiUrl, t, io, false, path, body, headers, target) ==
                Follow(apiUrl, t, io, Post(apiUrl, t, io, path, body, headers, None).value, target)
    ensures Post(apiUrl, t, io, path, body, headers, None).Err? ==>
              PostFollow(apiUrl, t, io, false, path, body, headers, target) == Post(apiUrl, t, io, path, body, headers, None)
  {
  }
}
