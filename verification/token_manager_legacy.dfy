/** The legacy token cache (src/dwolla/TokenManager.js): one shared promise
    per refresh, so concurrent callers wait on the same request, and a
    failed refresh clears the cache so the next call retries. */
module TokenManagerLegacy {
  import opened Js
  import opened Http
  import TokenLegacy

  const ExpiresInLeeway := 60

  /** The manager's `state` object. `instance` is the current token
      promise (`Ref(id)`) or `null`; promises this manager creates are
      numbered from `flights` on. */
  datatype LegacyState = LegacyState(instance: Value, expiresIn: Value, updatedAt: Value, flights: nat)

  /** `Object.assign({instance: null, expiresIn: null, updatedAt: null},
      initialState)`; an absent initial state is the empty list. Promises
      created afterwards are numbered from `firstFlight`. */
  const Defaults: Dict := [Entry("instance", Null), Entry("expiresIn", Null), Entry("updatedAt", Null)]

  /** Each default is `null`. */
  lemma DefaultsHoldNull(k: string)
    requires k in {"instance", "expiresIn", "updatedAt"}
    ensures Lookup(Defaults, k) == Some(Null)
  {
    assert Defaults[1..] == [Entry("expiresIn", Null), Entry("updatedAt", Null)];
    assert Defaults[1..][1..] == [Entry("updatedAt", Null)];
  }

  /** A key of the initial state wins over its `null` default. */
  lemma DefaultsLookup(initial: Dict, k: string)
    requires UniqueKeys(initial)
    requires k in {"instance", "expiresIn", "updatedAt"}
    ensures Js.Get(Assign(Defaults, initial), k) == if HasKey(initial, k) then Js.Get(initial, k) else Null
  {
    AssignLookup(Defaults, initial, k);
    DefaultsHoldNull(k);
  }

  function Init(initial: Dict, firstFlight: nat): (s: LegacyState)
    requires UniqueKeys(initial)
    ensures s.instance == if HasKey(initial, "instance") then Js.Get(initial, "instance") else Null
    ensures s.expiresIn == if HasKey(initial, "expiresIn") then Js.Get(initial, "expiresIn") else Null
    ensures s.updatedAt == if HasKey(initial, "updatedAt") then Js.Get(initial, "updatedAt") else Null
    ensures s.flights == firstFlight
  {
    var merged := Assign(Defaults, initial);
    DefaultsLookup(initial, "instance");
    DefaultsLookup(initial, "expiresIn");
    DefaultsLookup(initial, "updatedAt");
    LegacyState(Js.Get(merged, "instance"), Js.Get(merged, "expiresIn"), Js.Get(merged, "updatedAt"), firstFlight)
  }

  /** A value as an operand of `+` with a number: `null` is 0; `undefined`
      and objects give `NaN` (`None`). Strings (concatenation) and booleans
      are not modelled and count as `NaN`. */
  function AsAddend(v: Value): (r: Option<int>)
    ensures v.Num? ==> r == Some(v.n)
    ensures v.Null? ==> r == Some(0)
  {
    match v
    case Null => Some(0)
    case Num(n) => Some(n)
    case _ => None
  }

  /** `isTokenFresh()`: a refresh in progress (`expiresIn === null`) counts
      as fresh; otherwise more than the leeway must remain. */
  predicate IsTokenFresh(s: LegacyState, now: int) {
    s.expiresIn.Null? ||
    (AsAddend(s.updatedAt).Some? && AsAddend(s.expiresIn).Some? &&
     AsAddend(s.updatedAt).value + AsAddend(s.expiresIn).value > now + ExpiresInLeeway)
  }

  /** One `getToken()`: the promise returned, the state afterwards, and
      whether a refresh was started. */
  datatype Step = Step(promise: Value, state: LegacyState, requested: bool)

  /** `updateToken()`: start a refresh, marking it in progress. */
  function UpdateToken(s: LegacyState, now: int): (step: Step)
    ensures step.requested && step.promise == Ref(s.flights)
    ensures step.state == LegacyState(Ref(s.flights), Null, Num(now), s.flights + 1)
    ensures step.state.instance == step.promise && forall later :: IsTokenFresh(step.state, later)
  {
    Step(Ref(s.flights), LegacyState(Ref(s.flights), Null, Num(now), s.flights + 1), true)
  }

  function GetToken(s: LegacyState, now: int): (step: Step)
    ensures step.requested <==> s.instance == Null || !IsTokenFresh(s, now)
    ensures !step.requested ==> step.promise == s.instance && step.state == s
  {
    if s.instance == Null || !IsTokenFresh(s, now) then UpdateToken(s, now)
    else Step(s.instance, s, false)
  }

  /** The refresh promise's handlers: on success the token's lifetime is
      recorded; on failure the cached promise is dropped. */
  function Settle(s: LegacyState, outcome: Result<TokenLegacy.LegacyToken>): (s': LegacyState)
    ensures outcome.Ok? ==> s' == s.(expiresIn := outcome.value.expiresIn)
    ensures outcome.Err? ==> s' == s.(instance := Null)
    ensures outcome.Err? ==> forall later :: GetToken(s', later).requested
    ensures outcome.Ok? ==> s'.instance == s.instance
  {
    match outcome
    case Ok(token) => s.(expiresIn := token.expiresIn)
    case Err(_) => s.(instance := Null)
  }

  /** While a refresh is in flight every caller, at any time, gets the same
      promise and no further request is made. */
  lemma SingleFlight(s: LegacyState, started: int, now: int)
    ensures var first := GetToken(UpdateToken(s, started).state, now);
      !first.requested && first.promise == Ref(s.flights)
  {
  }

  /** A failed refresh is retried by the next call, with a new promise. */
  lemma FailureRetries(s: LegacyState, started: int, f: Failure, now: int)
    ensures var failed := Settle(UpdateToken(s, started).state, Err(f));
      GetToken(failed, now).requested && GetToken(failed, now).promise != Ref(s.flights)
  {
  }

  /** A successful refresh with lifetime `n`, started at `t`, is reused
      exactly while more than the leeway remains. */
  lemma SuccessServesUntilLeeway(s: LegacyState, t: int, token: TokenLegacy.LegacyToken, n: int, now: int)
    requires token.expiresIn == Num(n)
    ensures var done := Settle(UpdateToken(s, t).state, Ok(token));
      !GetToken(done, now).requested <==> now + ExpiresInLeeway < t + n
  {
  }

  /** A token without an `expires_in` is never reused: `undefined` makes
      the sum `NaN`. */
  lemma MissingLifetimeAlwaysRefreshes(s: LegacyState, t: int, token: TokenLegacy.LegacyToken, now: int)
    requires token.expiresIn == Undefined
    ensures GetToken(Settle(UpdateToken(s, t).state, Ok(token)), now).requested
  {
  }

  /** The cases the manager's own tests pin down, at a fixed clock: an
      empty cache requests, a cached promise with an hour left is returned,
      one with 30 seconds left is replaced. */
  lemma EmptyCacheRequests(now: int, firstFlight: nat)
    ensures GetToken(Init([], firstFlight), now).requested
  {
    assert Init([], firstFlight).instance == Null;
  }

  lemma HourLeftIsReused(existing: Value, now: int, firstFlight: nat)
    requires existing.Ref?
    ensures !GetToken(Seeded(existing, 3600, now, firstFlight), now).requested
    ensures GetToken(Seeded(existing, 3600, now, firstFlight), now).promise == existing
  {
    SeededFields(existing, 3600, now, firstFlight);
    assert IsTokenFresh(LegacyState(existing, Num(3600), Num(now), firstFlight), now);
  }

  lemma HalfMinuteLeftIsReplaced(existing: Value, now: int, firstFlight: nat)
    requires existing.Ref? && existing.id < firstFlight
    ensures GetToken(Seeded(existing, 30, now, firstFlight), now).requested
    ensures GetToken(Seeded(existing, 30, now, firstFlight), now).promise != existing
  {
    SeededFields(existing, 30, now, firstFlight);
    assert !IsTokenFresh(LegacyState(existing, Num(30), Num(now), firstFlight), now);
  }

  function Seeded(existing: Value, expiresIn: int, now: int, firstFlight: nat): LegacyState {
    var initial := [Entry("instance", existing), Entry("expiresIn", Num(expiresIn)), Entry("updatedAt", Num(now))];
    assert UniqueKeys(initial);
    Init(initial, firstFlight)
  }

  lemma SeededFields(existing: Value, expiresIn: int, now: int, firstFlight: nat)
    ensures Seeded(existing, expiresIn, now, firstFlight) == LegacyState(existing, Num(expiresIn), Num(now), firstFlight)
  {
    var initial := [Entry("instance", existing), Entry("expiresIn", Num(expiresIn)), Entry("updatedAt", Num(now))];
    assert UniqueKeys(initial);
    LookupOfEntry(initial, 0);
    LookupOfEntry(initial, 1);
    LookupOfEntry(initial, 2);
  }
}
