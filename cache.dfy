/** The caching discipline of CachedTokenProvider, as functions of its two
    fields: when a cached token may be handed out, what one `token` call
    returns and leaves behind, and what a run of calls does. */
module TokenCache {
  import opened Common

  /** The fields `_cached` and `_valid_until`. */
  datatype Cache = Cache(cached: Option<Token>, validUntil: int)

  /** The margin of the freshness test, written as a literal in the test.
      (The provider's `_clock_skew` attribute has the same value but the test
      does not read it.) */
  const RefreshMargin: int := 10

  /** The state of a provider that holds nothing: the class defaults, and
      what invalidation restores. */
  const Empty: Cache := Cache(None, -1)

  /** A cached token is handed out only if there is one, it is not empty,
      and it stays valid for at least the margin from `now`. */
  predicate Usable(c: Cache, now: int): (r: bool)
    ensures r ==> c.cached.Some? && c.cached.value != ""
    ensures r ==> c.validUntil - now >= RefreshMargin
  {
    c.cached.Some? && c.cached.value != "" && c.validUntil >= now + RefreshMargin
  }

  /** Trust only shrinks as time passes: a record usable now was usable at
      every earlier time, and one not usable now is never usable again. */
  lemma UsableMonotone(c: Cache, earlier: int, later: int)
    requires earlier <= later
    ensures Usable(c, later) ==> Usable(c, earlier)
    ensures !Usable(c, earlier) ==> !Usable(c, later)
  {
  }

  /** `invalidate_cache`, from any state. */
  function Invalidate(c: Cache): (r: Cache)
    ensures forall now :: !Usable(r, now)
    ensures r.cached.None?
  {
    Empty
  }

  /** One `token` call at time `now`. `acquired` is what `_request_token`
      would produce; it is consulted only when the cache is not usable.
      Returns the call's result and the fields afterwards. */
  function TokenStep(c: Cache, now: int, acquired: Result<Credential>): (out: (Result<Token>, Cache))
    ensures Usable(c, now) ==> out == (Ok(c.cached.value), c)
    ensures out.0.Ok? ==> out.1.cached == Some(out.0.value)
    ensures out.0.Ok? && !Usable(c, now) ==> acquired.Ok? && out.1 == Cache(Some(acquired.value.token), acquired.value.expiry)
    ensures out.0.Err? ==> out.1 == c && acquired.Err? && out.0.error == acquired.error
    ensures out.1 != c ==> !Usable(c, now) && acquired.Ok?
  {
    if !Usable(c, now) then
      match acquired
      case Ok(cred) => (Ok(cred.token), Cache(Some(cred.token), cred.expiry))
      case Err(e) => (Err(e), c)
    else
      (Ok(c.cached.value), c)
  }

  /** A cache hit does not depend on the acquisition at all: whatever
      `_request_token` would have done, the call returns the cached token and
      changes nothing. */
  lemma CacheHitIgnoresAcquisition(c: Cache, now: int, a1: Result<Credential>, a2: Result<Credential>)
    requires Usable(c, now)
    ensures TokenStep(c, now, a1) == TokenStep(c, now, a2) == (Ok(c.cached.value), c)
  {
  }

  /** A token that is returned without acquiring comes from a record that
      is not about to expire: no stale record is ever handed out. */
  lemma NoStaleToken(c: Cache, now: int, acquired: Result<Credential>)
    requires TokenStep(c, now, acquired).0.Ok?
    ensures var t := TokenStep(c, now, acquired).0.value;
            (Usable(c, now) && t == c.cached.value) || (acquired.Ok? && t == acquired.value.token)
  {
  }

  /** An acquisition that yields an empty token is cached but never trusted:
      the next call acquires again, whatever the expiry. */
  lemma EmptyTokenRefetches(c: Cache, now: int, expiry: int, later: int)
    requires !Usable(c, now)
    ensures !Usable(TokenStep(c, now, Ok(Credential("", expiry))).1, later)
  {
  }

  /** One call of a run: the time it happens and what an acquisition at that
      time would produce. */
  datatype Call = Call(now: int, acquired: Result<Credential>)

  /** A run of successive `token` calls: the results, the final fields and
      how many acquisitions happened. */
  function Replay(c: Cache, calls: seq<Call>): (out: (seq<Result<Token>>, Cache, nat))
    ensures |out.0| == |calls|
    ensures out.2 <= |calls|
    decreases |calls|
  {
    if calls == [] then ([], c, 0)
    else
      var step := TokenStep(c, calls[0].now, calls[0].acquired);
      var rest := Replay(step.1, calls[1..]);
      ([step.0] + rest.0, rest.1, rest.2 + (if Usable(c, calls[0].now) then 0 else 1))
  }

  /** While the cached record stays usable at every call's time, a run
      acquires nothing, returns the cached token each time and leaves the
      fields as they were. */
  lemma {:induction false} ReplayWhileFresh(c: Cache, calls: seq<Call>)
    requires forall i :: 0 <= i < |calls| ==> Usable(c, calls[i].now)
    ensures Replay(c, calls).2 == 0
    ensures Replay(c, calls).1 == c
    ensures forall i :: 0 <= i < |calls| ==> Replay(c, calls).0[i] == Ok(c.cached.value)
    decreases |calls|
  {
    if calls != [] {
      ReplayWhileFresh(c, calls[1..]);
      var rest := Replay(c, calls[1..]);
      assert Replay(c, calls).0 == [Ok(c.cached.value)] + rest.0;
    }
  }

  /** From a state that needs a refresh, a run whose first acquisition
      succeeds with a non-empty token valid beyond every later call's time
      (plus the margin) acquires exactly once and returns that token on
      every call. In particular `invalidate_cache` followed by such a run
      acquires exactly once. */
  lemma ReplayAcquiresOnce(c: Cache, calls: seq<Call>, cred: Credential)
    requires |calls| >= 1 && !Usable(c, calls[0].now) && calls[0].acquired == Ok(cred)
    requires cred.token != ""
    requires forall i :: 1 <= i < |calls| ==> cred.expiry >= calls[i].now + RefreshMargin
    ensures Replay(c, calls).2 == 1
    ensures Replay(c, calls).1 == Cache(Some(cred.token), cred.expiry)
    ensures forall i :: 0 <= i < |calls| ==> Replay(c, calls).0[i] == Ok(cred.token)
  {
    var renewed := Cache(Some(cred.token), cred.expiry);
    var tail := calls[1..];
    forall i | 0 <= i < |tail| ensures Usable(renewed, tail[i].now) {
      assert tail[i] == calls[i + 1];
    }
    ReplayWhileFresh(renewed, tail);
    var rest := Replay(renewed, tail);
    assert Replay(c, calls).0 == [Ok(cred.token)] + rest.0;
  }

  /** A failed acquisition leaves the fields alone, so a run of failures
      acquires on every call and the state afterwards is the state before. */
  lemma {:induction false} ReplayFailuresKeepState(c: Cache, calls: seq<Call>)
    requires forall i :: 0 <= i < |calls| ==> calls[i].acquired.Err? && !Usable(c, calls[i].now)
    ensures Replay(c, calls).1 == c
    ensures Replay(c, calls).2 == |calls|
    ensures forall i :: 0 <= i < |calls| ==> Replay(c, calls).0[i] == Err(calls[i].acquired.error)
    decreases |calls|
  {
    if calls != [] {
      var tail := calls[1..];
      forall i | 0 <= i < |tail| ensures tail[i].acquired.Err? && !Usable(c, tail[i].now) {
        assert tail[i] == calls[i + 1];
      }
      ReplayFailuresKeepState(c, tail);
      var rest := Replay(c, tail);
      assert Replay(c, calls).0 == [Err(calls[0].acquired.error)] + rest.0;
      forall i | 1 <= i < |calls| ensures Replay(c, calls).0[i] == Err(calls[i].acquired.error) {
        assert Replay(c, calls).0[i] == rest.0[i - 1];
        assert tail[i - 1] == calls[i];
      }
    }
  }
}
