/** The legacy `Client` (src/dwolla/Client.js): option validation, the
    environment table, and the client's own token cache, which refreshes
    at construction and whenever the cached lifetime has run out. */
module ClientLegacy {
  import opened Js
  import opened Http
  import opened IsOneOfTypes
  import opened AuthLegacy
  import TokenLegacy
  import TokenTs
  import Url

  /** A row of `ENVIRONMENTS`. */
  datatype LegacyEnvironment = LegacyEnvironment(authUrl: string, tokenUrl: string, apiUrl: string)

  const DefaultEnvironment := "production"

  const ProductionUrls := LegacyEnvironment(
    "https://www.dwolla.com/oauth/v2/authenticate", "https://accounts.dwolla.com/token", "https://api.dwolla.com")
  const SandboxUrls := LegacyEnvironment(
    "https://sandbox.dwolla.com/oauth/v2/authenticate", "https://accounts-sandbox.dwolla.com/token", "https://api-sandbox.dwolla.com")

  /** `ENVIRONMENTS[name]` for the names `in` accepts. */
  function EnvironmentNamed(name: string): Option<LegacyEnvironment> {
    if name == "production" then Some(ProductionUrls)
    else if name == "sandbox" then Some(SandboxUrls)
    else None
  }

  /** A validated client: the fields the auth functions read, the chosen
      environment's name and its API root. */
  datatype LegacyClient = LegacyClient(config: ClientConfig, environment: Value, apiUrl: string)

  /** The constructor's checks, in order. `typeof null` is "object", so
      `null` options pass the first check and fail reading `id`. */
  function Validate(opts: Value): (r: Result<LegacyClient>)
    ensures TypeOf(opts) != "object" ==> r == Err(InvariantViolation("First argument must be an object."))
    ensures opts.Null? ==> r == Err(TypeError)
    ensures r.Ok? ==> opts.Obj? || opts.Ref?
  {
    if TypeOf(opts) != "object" then Err(InvariantViolation("First argument must be an object."))
    else if opts.Null? then Err(TypeError)
    else
      var id := Prop(opts, "id").value;
      var key := Prop(opts, "key").value;
      var secret := Prop(opts, "secret").value;
      var environment := Or(Prop(opts, "environment").value, Str(DefaultEnvironment));
      var onGrant := Prop(opts, "onGrant").value;
      if !(TypeOf(id) == "string" || TypeOf(key) == "string") then Err(InvariantViolation("key is required."))
      else if TypeOf(secret) != "string" then Err(InvariantViolation("secret is required."))
      else if EnvironmentNamed(ToKeyString(environment)).None? then Err(InvariantViolation("Invalid environment."))
      else if !MatchesOneOf(onGrant, [Str("undefined"), Str("function")]) then Err(InvariantViolation("Invalid onGrant."))
      else
        var urls := EnvironmentNamed(ToKeyString(environment)).value;
        Ok(LegacyClient(ClientConfig(Or(id, key), secret, urls.authUrl, urls.tokenUrl, onGrant), environment, urls.apiUrl))
  }

  /** An options object is accepted exactly when it names an id or key and
      a secret as strings, a known environment (production when absent)
      and no hook or a function as hook; the URLs are that environment's. */
  lemma ValidateAccepts(props: Dict)
    ensures var opts := Obj(props);
      var env := Or(Js.Get(props, "environment"), Str(DefaultEnvironment));
      && (Validate(opts).Ok? <==>
            (TypeOf(Js.Get(props, "id")) == "string" || TypeOf(Js.Get(props, "key")) == "string")
            && TypeOf(Js.Get(props, "secret")) == "string"
            && ToKeyString(env) in {"production", "sandbox"}
            && (Js.Get(props, "onGrant").Undefined? || Js.Get(props, "onGrant").Fn?))
      && (Validate(opts).Ok? ==>
            Validate(opts).value.config.id == Or(Js.Get(props, "id"), Js.Get(props, "key"))
            && Validate(opts).value.config.secret == Js.Get(props, "secret")
            && Some(LegacyEnvironment(Validate(opts).value.config.authUrl, Validate(opts).value.config.tokenUrl,
                                      Validate(opts).value.apiUrl)) == EnvironmentNamed(ToKeyString(env)))
  {
    var opts := Obj(props);
    var env := Or(Js.Get(props, "environment"), Str(DefaultEnvironment));
    var onGrant := Js.Get(props, "onGrant");
    assert Prop(opts, "environment").value == Js.Get(props, "environment");
    assert Prop(opts, "onGrant").value == onGrant;
    OnGrantTags(onGrant);
    KnownEnvironments(ToKeyString(env));
    if !(TypeOf(Js.Get(props, "id")) == "string" || TypeOf(Js.Get(props, "key")) == "string") {
      assert Validate(opts).Err?;
    } else if TypeOf(Js.Get(props, "secret")) != "string" {
      assert Validate(opts).Err?;
    } else if EnvironmentNamed(ToKeyString(env)).None? {
      assert Validate(opts).Err?;
    } else if !(onGrant.Undefined? || onGrant.Fn?) {
      assert Validate(opts).Err?;
    } else {
      assert Validate(opts).Ok?;
    }
  }

  /** `isOneOfTypes(onGrant, ["undefined", "function"])` admits exactly a
      missing hook and a function. */
  lemma OnGrantTags(v: Value)
    ensures MatchesOneOf(v, [Str("undefined"), Str("function")]) <==> v.Undefined? || v.Fn?
  {
  }

  /** `name in ENVIRONMENTS` holds for exactly the two table rows. */
  lemma KnownEnvironments(name: string)
    ensures EnvironmentNamed(name).Some? <==> name in {"production", "sandbox"}
  {
  }

  /** The checks run in order: a missing key is reported even when the
      secret and environment are wrong too. */
  lemma KeyCheckedFirst(props: Dict)
    requires TypeOf(Js.Get(props, "id")) != "string" && TypeOf(Js.Get(props, "key")) != "string"
    ensures Validate(Obj(props)) == Err(InvariantViolation("key is required."))
  {
  }

  /** Without an `environment` option the client talks to production. */
  lemma DefaultsToProduction(props: Dict)
    requires Validate(Obj(props)).Ok? && !Truthy(Js.Get(props, "environment"))
    ensures Validate(Obj(props)).value.apiUrl == "https://api.dwolla.com"
    ensures Validate(Obj(props)).value.config.tokenUrl == "https://accounts.dwolla.com/token"
  {
  }

  /** The client's `currentToken`: the token promise (`Ref(id)`), the
      lifetime (`null` while a refresh runs) and the time of the last
      refresh. Promises are numbered from `flights` on. */
  datatype CurrentToken = CurrentToken(instance: Value, expiresIn: Value, updatedAt: int, flights: nat)

  /** `updateToken()`: start `auth.client()` and mark a refresh running. */
  function UpdateToken(c: CurrentToken, now: int): (c': CurrentToken)
    ensures c'.instance == Ref(c.flights) && c'.expiresIn == Null && c'.flights == c.flights + 1
  {
    CurrentToken(Ref(c.flights), Null, now, c.flights + 1)
  }

  /** The constructor's first refresh. */
  function Start(now: int, firstFlight: nat): (c: CurrentToken)
    ensures c.instance == Ref(firstFlight) && c.expiresIn.Null?
  {
    UpdateToken(CurrentToken(Null, Null, now, firstFlight), now)
  }

  /** `freshToken()`'s test: running, or the lifetime has not yet passed.
      There is no leeway, and a non-number lifetime is never fresh. */
  predicate Fresh(c: CurrentToken, now: int) {
    c.expiresIn.Null? || (c.expiresIn.Num? && c.updatedAt + c.expiresIn.n > now)
  }

  /** `freshToken()`: the promise every request waits on, and the cache
      afterwards. */
  function FreshToken(c: CurrentToken, now: int): (out: (Value, CurrentToken))
    ensures Fresh(c, now) ==> out == (c.instance, c)
    ensures !Fresh(c, now) ==> out.0 == Ref(c.flights) && out.1 == UpdateToken(c, now)
    ensures out.0 == out.1.instance && Fresh(out.1, now)
  {
    if Fresh(c, now) then (c.instance, c)
    else var c' := UpdateToken(c, now); (c'.instance, c')
  }

  /** The refresh promise's one handler, as written: a success records the
      lifetime; there is no failure handler, so a failure changes nothing
      and the rejected promise stays cached with `expiresIn` still `null`. */
  function Settle(c: CurrentToken, outcome: Result<TokenLegacy.LegacyToken>): (c': CurrentToken)
    ensures outcome.Err? ==> c' == c
    ensures outcome.Ok? ==> c' == c.(expiresIn := outcome.value.expiresIn)
    ensures c'.instance == c.instance
    ensures outcome.Err? && c.expiresIn.Null? ==> forall later :: Fresh(c', later)
  {
    match outcome
    case Ok(token) => c.(expiresIn := token.expiresIn)
    case Err(_) => c
  }

  /** A failed refresh is never retried: at every later time the client
      hands out the same rejected promise and starts no refresh. */
  lemma FailedRefreshSticks(t0: int, firstFlight: nat, f: Failure, now: int)
    ensures var failed := Settle(Start(t0, firstFlight), Err(f));
      FreshToken(failed, now) == (Ref(firstFlight), failed)
  {
  }

  /** `client.get(path, query, headers)`: wait for the fresh token, then
      call the token's `get`. `settled` says what each token promise
      settles to. */
  function ClientGet(c: CurrentToken, now: int, settled: Value -> Result<TokenLegacy.LegacyToken>,
                     apiUrl: string, io: TokenTs.Io, path: Url.PathLike, query: Value, headers: Dict)
    : (out: (Result<Response>, CurrentToken))
  {
    var (promise, c') := FreshToken(c, now);
    match settled(promise)
    case Err(f) => (Err(f), c')
    case Ok(token) => (TokenLegacy.Get(apiUrl, token, io, path, query, headers), c')
  }

  /** Consequently, once the first refresh fails, every API call fails with
      that same error and sends nothing, for the client's whole lifetime. */
  lemma FailedRefreshPoisonsCalls(t0: int, firstFlight: nat, f: Failure, now: int,
                                  settled: Value -> Result<TokenLegacy.LegacyToken>,
                                  apiUrl: string, io: TokenTs.Io, path: Url.PathLike, query: Value, headers: Dict)
    requires settled(Ref(firstFlight)) == Err(f)
    ensures var failed := Settle(Start(t0, firstFlight), Err(f));
      ClientGet(failed, now, settled, apiUrl, io, path, query, headers) == (Err(f), failed)
  {
  }

  /** A successful refresh with lifetime `n`, started at `t`, is reused
      until `t + n` (no minute of leeway, unlike the token manager). */
  lemma SuccessServedUntilExpiry(t: int, firstFlight: nat, token: TokenLegacy.LegacyToken, n: int, now: int)
    requires token.expiresIn == Num(n)
    ensures var done := Settle(Start(t, firstFlight), Ok(token));
      FreshToken(done, now).0 == Ref(firstFlight) <==> now < t + n
  {
  }
}
