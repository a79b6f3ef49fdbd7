/** The legacy `Auth` (src/dwolla/Auth.js): token requests at the OAuth
    token endpoint (client credentials, refresh, authorization code), the
    `onGrant` hook, and the authorization-code flow object. */
module AuthLegacy {
  import opened Js
  import opened Http
  import opened RejectEmptyKeys
  import opened SnakifyKeys
  import opened TokenLegacy
  import TokenTs

  /** The client fields the legacy auth functions read. */
  datatype ClientConfig = ClientConfig(id: Value, secret: Value, authUrl: string, tokenUrl: string, onGrant: Value)

  /** What the `onGrant` callback's return value does when `.then` is
      called on it: it resolves, it rejects with a reason, or it is not a
      promise at all (so `.then` is a TypeError). */
  datatype HookOutcome = Resolves | Rejects(reason: Value) | NotThenable

  type Hook = LegacyToken -> HookOutcome

  const FormContentType := "application/x-www-form-urlencoded"
  const InvalidState := "Invalid state parameter."

  /** `errorFrom(parsedRes)`: the three OAuth error fields. */
  function ErrorFrom(res: Dict): (f: Failure)
    ensures f.OAuthError?
    ensures f.error == Js.Get(res, "error")
    ensures f.description == Js.Get(res, "error_description")
    ensures f.uri == Js.Get(res, "error_uri")
  {
    OAuthError(Js.Get(res, "error"), Js.Get(res, "error_description"), Js.Get(res, "error_uri"))
  }

  /** `handleTokenResponse(client, res)`: an OAuth error, or a token built
      from the reply. Reading `error` off a `null` reply is a TypeError. */
  function HandleTokenResponse(res: Value): (r: Result<LegacyToken>)
    ensures IsNullish(res) ==> r == Err(TypeError)
    ensures res.Obj? && Truthy(Js.Get(res.props, "error")) ==> r == Err(ErrorFrom(res.props))
    ensures res.Obj? && !Truthy(Js.Get(res.props, "error")) ==> r == New(res)
  {
    match Prop(res, "error")
    case None => Err(TypeError)
    case Some(error) =>
      if Truthy(error) then
        match res
        case Obj(props) => Err(ErrorFrom(props))
        case _ => Err(ErrorFrom([]))
      else New(res)
  }

  /** `performOnGrantCallback(client, token)`: without a hook the token;
      with one, the token once the hook's promise resolves. */
  function PerformOnGrant(config: ClientConfig, token: LegacyToken, hook: Hook): (r: Result<LegacyToken>)
    ensures !Truthy(config.onGrant) ==> r == Ok(token)
    ensures r.Ok? ==> r.value == token
    ensures Truthy(config.onGrant) ==> (r.Ok? <==> hook(token).Resolves?)
  {
    if !Truthy(config.onGrant) then Ok(token)
    else
      match hook(token)
      case Resolves => Ok(token)
      case Rejects(reason) => Err(Thrown(reason))
      case NotThenable => Err(TypeError)
  }

  /** The form fields: client id and secret, then the grant's parameters
      assigned over them. */
  function RequestBody(config: ClientConfig, params: Dict): Dict {
    Assign([Entry("client_id", config.id), Entry("client_secret", config.secret)], params)
  }

  function TokenRequest(config: ClientConfig, params: Dict, io: TokenTs.Io): Request {
    Request(POST, config.tokenUrl,
      [Entry("content-type", Str(FormContentType)), Entry("user-agent", Str(io.userAgent))],
      EncodedPayload(io.encode(RequestBody(config, params))))
  }

  /** `requestToken(client, params)`: post the form, read the reply as JSON
      whatever its status, then check it and run the hook. */
  function RequestToken(config: ClientConfig, params: Dict, io: TokenTs.Io, hook: Hook): Result<LegacyToken> {
    match io.fetch(TokenRequest(config, params, io))
    case None => Err(Transport)
    case Some(raw) =>
      match io.parseJson(raw.text)
      case None => Err(InvalidJson)
      case Some(res) =>
        match HandleTokenResponse(res)
        case Err(f) => Err(f)
        case Ok(token) => PerformOnGrant(config, token, hook)
  }

  /** `auth.client()`. */
  function ClientGrant(config: ClientConfig, io: TokenTs.Io, hook: Hook): Result<LegacyToken> {
    RequestToken(config, [Entry("grant_type", Str("client_credentials"))], io, hook)
  }

  /** `auth.refresh(token)`: reads the token's `refresh_token`. */
  function RefreshGrant(config: ClientConfig, token: Value, io: TokenTs.Io, hook: Hook): Result<LegacyToken> {
    match Prop(token, "refresh_token")
    case None => Err(TypeError)
    case Some(refresh) =>
      RequestToken(config, [Entry("grant_type", Str("refresh_token")), Entry("refresh_token", refresh)], io, hook)
  }

  /** The id and secret are sent unless the grant's parameters override
      them; every grant parameter is sent as given. */
  lemma RequestBodyFields(config: ClientConfig, params: Dict, k: string)
    requires UniqueKeys(params)
    ensures HasKey(params, k) ==> Lookup(RequestBody(config, params), k) == Lookup(params, k)
    ensures !HasKey(params, k) && k == "client_id" ==> Lookup(RequestBody(config, params), k) == Some(config.id)
    ensures !HasKey(params, k) && k == "client_secret" ==> Lookup(RequestBody(config, params), k) == Some(config.secret)
  {
    var base := [Entry("client_id", config.id), Entry("client_secret", config.secret)];
    AssignLookup(base, params, k);
    if !HasKey(params, k) {
      if k == "client_id" {
        LookupOfEntry(base, 0);
      } else if k == "client_secret" {
        LookupOfEntry(base, 1);
      }
    }
  }

  /** A refresh posts the refresh grant with the token's refresh token. */
  lemma RefreshSendsRefreshToken(config: ClientConfig, props: Dict, io: TokenTs.Io, hook: Hook)
    ensures var params := [Entry("grant_type", Str("refresh_token")), Entry("refresh_token", Js.Get(props, "refresh_token"))];
      && RefreshGrant(config, Obj(props), io, hook) == RequestToken(config, params, io, hook)
      && Lookup(RequestBody(config, params), "grant_type") == Some(Str("refresh_token"))
      && Lookup(RequestBody(config, params), "refresh_token") == Some(Js.Get(props, "refresh_token"))
  {
    var params := [Entry("grant_type", Str("refresh_token")), Entry("refresh_token", Js.Get(props, "refresh_token"))];
    RequestBodyFields(config, params, "grant_type");
    RequestBodyFields(config, params, "refresh_token");
    LookupOfEntry(params, 0);
    LookupOfEntry(params, 1);
  }

  /** A token endpoint reply carrying an `error` is rejected with the OAuth
      error fields, whatever the status, and the hook never runs. */
  lemma ErrorReplyRejects(config: ClientConfig, params: Dict, io: TokenTs.Io, hook: Hook, raw: RawResponse, props: Dict)
    requires io.fetch(TokenRequest(config, params, io)) == Some(raw)
    requires io.parseJson(raw.text) == Some(Obj(props))
    requires Truthy(Js.Get(props, "error"))
    ensures RequestToken(config, params, io, hook) ==
              Err(OAuthError(Js.Get(props, "error"), Js.Get(props, "error_description"), Js.Get(props, "error_uri")))
  {
  }

  /** A successful reply yields the token its snake_case fields describe,
      once the hook (if any) resolves. */
  lemma SuccessfulReplyBuildsToken(config: ClientConfig, params: Dict, io: TokenTs.Io, hook: Hook, raw: RawResponse, props: Dict)
    requires io.fetch(TokenRequest(config, params, io)) == Some(raw)
    requires io.parseJson(raw.text) == Some(Obj(props))
    requires !Truthy(Js.Get(props, "error"))
    requires !Truthy(config.onGrant) || hook(New(Obj(props)).value).Resolves?
    ensures RequestToken(config, params, io, hook) == Ok(LegacyToken(
              Js.Get(props, "access_token"), Js.Get(props, "refresh_token"), Js.Get(props, "expires_in"),
              Js.Get(props, "scope"), Js.Get(props, "account_id")))
  {
  }

  /** The authorization-code flow object `new client.Auth(opts)`. */
  datatype AuthFlow = AuthFlow(redirectUri: Value, scope: Value, state: Value, verifiedAccount: Value, dwollaLanding: Value, url: string)

  /** `query(client, opts)`'s object, before empty keys are dropped. */
  function AuthorizeQuery(config: ClientConfig, opts: Value): Dict
    requires !IsNullish(opts)
  {
    [ Entry("response_type", Str("code")),
      Entry("client_id", config.id),
      Entry("redirect_uri", Prop(opts, "redirect_uri").value),
      Entry("scope", Prop(opts, "scope").value),
      Entry("state", Prop(opts, "state").value),
      Entry("verified_account", Prop(opts, "verified_account").value),
      Entry("dwolla_landing", Prop(opts, "dwolla_landing").value) ]
  }

  /** `new AuthClass(client, opts)`: `undefined` options are `{}`. */
  function NewAuthFlow(config: ClientConfig, opts: Value, encode: Dict -> string): (r: Result<AuthFlow>)
    ensures r.Err? <==> opts.Null?
    ensures r.Ok? ==> r.value.url == config.authUrl + "?" + encode(KeepDefined(AuthorizeQuery(config, if opts.Undefined? then Obj([]) else opts)))
  {
    var o := if opts.Undefined? then Obj([]) else opts;
    if o.Null? then Err(TypeError)
    else
      Ok(AuthFlow(Prop(o, "redirect_uri").value, Prop(o, "scope").value, Prop(o, "state").value,
        Prop(o, "verified_account").value, Prop(o, "dwolla_landing").value,
        config.authUrl + "?" + encode(KeepDefined(AuthorizeQuery(config, o)))))
  }

  /** `client.auth(opts)`: the options' keys are snake_cased in place
      first; `null` options fail there. */
  function Authorize(config: ClientConfig, opts: Value, encode: Dict -> string): (r: Result<AuthFlow>)
    ensures r.Err? <==> opts.Null?
  {
    match SnakifyKeys.SnakifyKeys(opts)
    case None => Err(TypeError)
    case Some(snaked) => NewAuthFlow(config, snaked, encode)
  }

  /** The authorize query always asks for a code for this client, and
      carries exactly the options that are set. */
  lemma AuthorizeQueryEntries(config: ClientConfig, opts: Value, e: Entry)
    requires !IsNullish(opts)
    ensures Entry("response_type", Str("code")) in KeepDefined(AuthorizeQuery(config, opts))
    ensures e in KeepDefined(AuthorizeQuery(config, opts)) <==> e in AuthorizeQuery(config, opts) && !IsNullish(e.value)
  {
  }

  /** A camelCase option reaches the flow under its snake_case name: a key
      such as `redirectUri`, whose snake form is `redirect_uri`, gives the
      redirect URI when no later key is renamed onto the same name. */
  lemma CamelCaseOptionsAccepted(config: ClientConfig, props: Dict, i: nat, encode: Dict -> string)
    requires UniqueKeys(props)
    requires i < |props| && props[i].key != "redirect_uri" && ToSnakeCase(props[i].key) == "redirect_uri"
    requires forall j :: i < j < |props| && Renames(props[j].key) ==> ToSnakeCase(props[j].key) != "redirect_uri"
    ensures Authorize(config, Obj(props), encode).Ok?
    ensures Authorize(config, Obj(props), encode).value.redirectUri == props[i].value
  {
    var renamed := RenameKeys(props, Keys(props));
    CamelWinsCollision(props, i);
    assert Lookup(renamed, "redirect_uri") == Some(props[i].value);
    assert Authorize(config, Obj(props), encode) == NewAuthFlow(config, Obj(renamed), encode);
  }

  /** `auth.callback(params)`: the state must match the flow's, an `error`
      is thrown back as the params themselves, and otherwise the code is
      exchanged with the flow's redirect URI. */
  function Callback(flow: AuthFlow, config: ClientConfig, params: Value, io: TokenTs.Io, hook: Hook): (r: Result<LegacyToken>)
    ensures IsNullish(params) ==> r == Err(TypeError)
    ensures params.Obj? && Js.Get(params.props, "state") != flow.state ==> r == Err(InvariantViolation(InvalidState))
    ensures params.Obj? && Js.Get(params.props, "state") == flow.state && Truthy(Js.Get(params.props, "error")) ==>
              r == Err(Thrown(params))
  {
    match Prop(params, "state")
    case None => Err(TypeError)
    case Some(state) =>
      if state != flow.state then Err(InvariantViolation(InvalidState))
      else if Truthy(Prop(params, "error").value) then Err(Thrown(params))
      else RequestToken(config, CodeGrant(flow, params), io, hook)
  }

  /** The authorization-code grant parameters. */
  function CodeGrant(flow: AuthFlow, params: Value): Dict
    requires !IsNullish(params)
  {
    [ Entry("grant_type", Str("authorization_code")),
      Entry("code", Prop(params, "code").value),
      Entry("redirect_uri", flow.redirectUri) ]
  }

  /** A matching callback without error exchanges its code, with the flow's
      redirect URI, for a token. */
  lemma CallbackExchangesCode(flow: AuthFlow, config: ClientConfig, props: Dict, io: TokenTs.Io, hook: Hook)
    requires Js.Get(props, "state") == flow.state && !Truthy(Js.Get(props, "error"))
    ensures Callback(flow, config, Obj(props), io, hook) == RequestToken(config, CodeGrant(flow, Obj(props)), io, hook)
    ensures Lookup(RequestBody(config, CodeGrant(flow, Obj(props))), "code") == Some(Js.Get(props, "code"))
    ensures Lookup(RequestBody(config, CodeGrant(flow, Obj(props))), "redirect_uri") == Some(flow.redirectUri)
    ensures Lookup(RequestBody(config, CodeGrant(flow, Obj(props))), "grant_type") == Some(Str("authorization_code"))
  {
    var grant := CodeGrant(flow, Obj(props));
    RequestBodyFields(config, grant, "code");
    RequestBodyFields(config, grant, "redirect_uri");
    RequestBodyFields(config, grant, "grant_type");
    LookupOfEntry(grant, 0);
    LookupOfEntry(grant, 1);
    LookupOfEntry(grant, 2);
  }
}
