/** The token cache of the TypeScript clients (src/TokenManager.ts and
    src/token-manager.ts, which behave identically): reuse the cached token
    while it has more than a minute to live, otherwise request a new one. */
module TokenManagerTs {
  import opened Js
  import opened Http
  import opened Tokens

  const ExpiresInDelta := 60

  /** `TokenManagerState`; `updatedAt` is in Unix seconds. */
  datatype ManagerState = ManagerState(expiresIn: Value, instance: Option<Token>, updatedAt: int)

  /** `isTokenFresh()` at time `now`: a missing state is stale; a `null`
      `expiresIn` is fresh; a number is fresh while it and `updatedAt` add
      up to more than a minute from now. Any other value adds up to `NaN`
      and is stale. */
  predicate IsTokenFresh(s: Option<ManagerState>, now: int) {
    match s
    case None => false
    case Some(st) =>
      st.expiresIn.Null? || (st.expiresIn.Num? && st.expiresIn.n + st.updatedAt > now + ExpiresInDelta)
  }

  /** `getToken()`'s test: no cached instance, or not fresh. */
  predicate NeedsRefresh(s: Option<ManagerState>, now: int) {
    s.None? || s.value.instance.None? || !IsTokenFresh(s, now)
  }

  /** What `auth.requestToken()` gives, and the Unix second at which the
      state is written afterwards. */
  datatype Reply = Reply(result: Result<Token>, settledAt: int)

  /** One `getToken()`: its result, the state afterwards, and whether it
      requested a token. */
  datatype Step = Step(result: Result<Token>, state: Option<ManagerState>, requested: bool)

  /** `updateToken()`: on success the new token, its lifetime and the time
      are stored; a failure propagates and leaves the state alone. */
  function UpdateToken(s: Option<ManagerState>, reply: Reply): (step: Step)
    ensures step.requested && step.result == reply.result
    ensures reply.result.Err? ==> step.state == s
    ensures reply.result.Ok? ==>
              step.state == Some(ManagerState(reply.result.value.state.expiresIn, Some(reply.result.value), reply.settledAt))
  {
    match reply.result
    case Err(_) => Step(reply.result, s, true)
    case Ok(token) => Step(reply.result, Some(ManagerState(token.state.expiresIn, Some(token), reply.settledAt)), true)
  }

  function GetToken(s: Option<ManagerState>, now: int, reply: Reply): (step: Step)
    ensures step.requested <==> NeedsRefresh(s, now)
    ensures !step.requested ==> step.state == s && step.result == Ok(s.value.instance.value)
  {
    if NeedsRefresh(s, now) then UpdateToken(s, reply)
    else Step(Ok(s.value.instance.value), s, false)
  }

  /** The constructor, once its warm-up has settled: outside test mode one
      refresh runs and a failure is only logged. */
  function Construct(initial: Option<ManagerState>, testMode: bool, reply: Reply): (s: Option<ManagerState>)
    ensures testMode ==> s == initial
    ensures reply.result.Err? ==> s == initial
    ensures !testMode && reply.result.Ok? ==>
              s == Some(ManagerState(reply.result.value.state.expiresIn, Some(reply.result.value), reply.settledAt))
  {
    if testMode then initial else UpdateToken(initial, reply).state
  }

  /** A token refreshed at `t` with lifetime `n` is served from the cache,
      without a request, at every `now` with more than a minute left. */
  lemma ServedWhileFresh(s: Option<ManagerState>, reply: Reply, n: int, now: int, next: Reply)
    requires reply.result.Ok? && reply.result.value.state.expiresIn == Num(n)
    requires now + ExpiresInDelta < reply.settledAt + n
    ensures var after := UpdateToken(s, reply).state;
      GetToken(after, now, next) == Step(reply.result, after, false)
  {
  }

  /** From one minute before expiry on, a new token is requested. */
  lemma RefreshedWhenStale(s: Option<ManagerState>, reply: Reply, n: int, now: int, next: Reply)
    requires reply.result.Ok? && reply.result.value.state.expiresIn == Num(n)
    requires now + ExpiresInDelta >= reply.settledAt + n
    ensures GetToken(UpdateToken(s, reply).state, now, next).requested
  {
  }

  /** A token that lives a minute or less is never reused after it is
      stored. */
  lemma ShortLivedTokenNeverReused(s: Option<ManagerState>, reply: Reply, n: int, now: int, next: Reply)
    requires reply.result.Ok? && reply.result.value.state.expiresIn == Num(n)
    requires n <= ExpiresInDelta && now >= reply.settledAt
    ensures GetToken(UpdateToken(s, reply).state, now, next).requested
  {
  }

  /** A cached token with a `null` lifetime is reused forever. */
  lemma NullLifetimeNeverRefreshes(token: Token, updatedAt: int, now: int, next: Reply)
    ensures !GetToken(Some(ManagerState(Null, Some(token), updatedAt)), now, next).requested
  {
  }

  /** Staleness only grows with time. Since the state is written only after
      the request settles, every call made meanwhile requests a token of
      its own: there is no single-flight refresh. */
  lemma StalenessIsMonotone(s: Option<ManagerState>, t1: int, t2: int)
    requires t1 <= t2 && NeedsRefresh(s, t1)
    ensures NeedsRefresh(s, t2)
  {
  }

  /** Consecutive calls at `times`, the auth server answering `replies[i]`
      to the i-th request: the final state and the number of requests. */
  function Run(s: Option<ManagerState>, times: seq<int>, replies: seq<Reply>): (out: (Option<ManagerState>, nat))
    ensures out.1 <= |times|
    decreases |times|
  {
    if |times| == 0 then (s, 0)
    else
      var reply := if |replies| > 0 then replies[0] else Reply(Err(Transport), times[0]);
      var step := GetToken(s, times[0], reply);
      var rest := Run(step.state, times[1..], if step.requested && |replies| > 0 then replies[1..] else replies);
      (rest.0, rest.1 + (if step.requested then 1 else 0))
  }

  /** Any number of calls, all made while the cached token is fresh, issue
      no request and leave the cache as it is. */
  lemma {:induction false} FreshCacheAnswersAll(s: Option<ManagerState>, times: seq<int>, replies: seq<Reply>)
    requires forall i :: 0 <= i < |times| ==> !NeedsRefresh(s, times[i])
    ensures Run(s, times, replies) == (s, 0)
    decreases |times|
  {
    if |times| > 0 {
      assert !NeedsRefresh(s, times[0]);
      FreshCacheAnswersAll(s, times[1..], replies);
    }
  }

  /** From an empty cache, consecutive calls, each made once the previous
      one has settled and all within the new token's window, cost exactly
      one request. */
  lemma OneRequestPerWindow(times: seq<int>, replies: seq<Reply>, n: int)
    requires |times| > 0 && |replies| > 0
    requires replies[0].result.Ok? && replies[0].result.value.state.expiresIn == Num(n)
    requires forall i :: 1 <= i < |times| ==> times[i] + ExpiresInDelta < replies[0].settledAt + n
    ensures Run(None, times, replies).1 == 1
  {
    var after := UpdateToken(None, replies[0]).state;
    assert forall i :: 0 <= i < |times[1..]| ==> !NeedsRefresh(after, times[1..][i]) by {
      forall i | 0 <= i < |times[1..]|
        ensures !NeedsRefresh(after, times[1..][i])
      {
        assert times[1..][i] == times[i + 1];
      }
    }
    FreshCacheAnswersAll(after, times[1..], replies[1..]);
  }

  /** The cases the manager's own tests pin down, at a fixed clock. */
  lemma ManagerTestCases(existing: Token, fetched: Token, now: int)
    requires existing != fetched
    ensures GetToken(None, now, Reply(Ok(fetched), now)).result == Ok(fetched)
    ensures GetToken(Some(ManagerState(Num(3600), Some(existing), now)), now, Reply(Ok(fetched), now)).result == Ok(existing)
    ensures GetToken(Some(ManagerState(Num(30), Some(existing), now)), now, Reply(Ok(fetched), now)).result == Ok(fetched)
  {
  }
}
