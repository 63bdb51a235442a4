/** What retention guarantees: exactly when pruning can never drop a key that a live token needs. */
module KeyRetention {
  import opened Entities
  import opened SigningKeys
  import opened KeyLifecycle

  // Every start prunes with this retention and every token lives for at most maxTTL
  predicate Follows(events: seq<Event>, retentionDays: int, maxTTL: int) {
    forall i :: 0 <= i < |events| ==>
      match events[i] {
        case Start(_, _, days, _, _) => days == retentionDays
        case Issue(_, ttl) => ttl <= maxTTL
      }
  }

  predicate Covers(retentionDays: int, maxTTL: int) {
    retentionDays < 0 || retentionDays * DAY * SECOND >= maxTTL + SKEW
  }

  // Every start prunes with a retention, not always the same, that covers tokens of at most maxTTL
  predicate Careful(events: seq<Event>, maxTTL: int) {
    forall i :: 0 <= i < |events| ==>
      match events[i] {
        case Start(_, _, days, _, _) => Covers(days, maxTTL)
        case Issue(_, ttl) => ttl <= maxTTL
      }
  }

  // Every token that is not expired can be verified, now and until the next start
  ghost predicate LiveTokensVerify(s: State) {
    forall token, now :: token in s.tokens && now >= s.now && !Expired(token, now) ==>
      s.loaded.Some? && token.kid in s.loaded.value.verify
  }

  // The key that signed the token is still stored, and was not retired before the token was issued
  ghost predicate Held(keys: seq<ManagedKey>, token: Token) {
    exists k :: k in keys && k.id == token.kid && (k.retiredAt == 0 || Unix(token.issuedAt) <= k.retiredAt)
  }

  ghost predicate Timely(s: State, maxTTL: int, token: Token) {
    token.issuedAt <= s.now && token.exp * SECOND <= token.issuedAt + maxTTL
  }

  ghost predicate Covered(s: State, maxTTL: int) {
    forall token :: token in s.tokens ==>
      Timely(s, maxTTL, token) && (Expired(token, s.now) || (s.stored.Some? && Held(s.stored.value.keys, token)))
  }

  lemma RotationHolds(ks: KeySet, newID: string, now: int, token: Token)
    requires Held(ks.keys, token) && token.issuedAt <= now
    ensures Held(Rotated(ks, newID, now).keys, token)
  {
    IndexOfFinds(ks.keys, ks.active);
    var i := IndexOf(ks.keys, ks.active);
    var k :| k in ks.keys && k.id == token.kid && (k.retiredAt == 0 || Unix(token.issuedAt) <= k.retiredAt);
    var j :| 0 <= j < |ks.keys| && ks.keys[j] == k;
    if 0 <= i {
      var keys := Rotated(ks, newID, now).keys;
      assert keys[j] in keys;
    }
  }

  // A key is dropped only when no token it signed can still be accepted
  lemma PruningHolds(ks: KeySet, retentionDays: int, now: int, maxTTL: int, token: Token)
    requires Covers(retentionDays, maxTTL) && Held(ks.keys, token)
    requires token.exp * SECOND <= token.issuedAt + maxTTL && !Expired(token, now)
    ensures Held(Pruned(ks, retentionDays, now).keys, token)
  {
    var k :| k in ks.keys && k.id == token.kid && (k.retiredAt == 0 || Unix(token.issuedAt) <= k.retiredAt);
    if retentionDays >= 0 {
      var cutoff := Unix(now - retentionDays * DAY * SECOND);
      WithoutStaleKeeps(ks.active, ks.keys, cutoff);
      assert now <= token.issuedAt + retentionDays * DAY * SECOND;
      assert cutoff <= Unix(token.issuedAt);
      assert k in Pruned(ks, retentionDays, now).keys;
    }
  }

  lemma StartCovers(s: State, e: Event, maxTTL: int, token: Token)
    requires Enabled(s, e) && e.Start? && Inv(s) && Covers(e.retentionDays, maxTTL)
    requires token in s.tokens && Covered(s, maxTTL) && !Expired(token, e.at)
    ensures Step(s, e).stored.Some? && Held(Step(s, e).stored.value.keys, token)
  {
    hide Held, Step, Covers, RotatedAndPruned, Pruned, Rotated, Rotates, Build, Configs;
    StartRenews(s, e);
    if Rotates(s.stored.value, e) {
      RotationHolds(s.stored.value, e.newID, e.at, token);
    }
    PruningHolds(Renewed(s, e), e.retentionDays, e.at, maxTTL, token);
  }

  lemma StepCovers(s: State, e: Event, maxTTL: int)
    requires Enabled(s, e) && Inv(s) && Covered(s, maxTTL) && Careful([e], maxTTL)
    ensures Covered(Step(s, e), maxTTL)
  {
    hide Held, Covers;
    assert [e][0] == e;
    forall token | token in Step(s, e).tokens
      ensures Timely(Step(s, e), maxTTL, token)
      ensures Expired(token, e.at) || (Step(s, e).stored.Some? && Held(Step(s, e).stored.value.keys, token))
    {
      if e.Start? {
        if !Expired(token, e.at) {
          StartCovers(s, e, maxTTL, token);
        }
      } else if token !in s.tokens {
        IssuedIsHeld(s, token);
      }
    }
  }

  lemma IssuedIsHeld(s: State, token: Token)
    requires Inv(s) && s.loaded.Some? && token.kid == s.loaded.value.active
    ensures Held(s.stored.value.keys, token)
  {
    hide Base64Url;
    var k :| k in s.stored.value.keys && k.id == s.stored.value.active;
  }

  lemma {:induction false} RunCovers(s: State, events: seq<Event>, maxTTL: int)
    requires IsRun(s, events) && Careful(events, maxTTL)
    requires Inv(s) && Covered(s, maxTTL)
    ensures Inv(After(s, events)) && Covered(After(s, events), maxTTL)
    decreases |events|
  {
    hide Inv, Covered, Step;
    if events != [] {
      StepInv(s, events[0]);
      assert Careful([events[0]], maxTTL);
      StepCovers(s, events[0], maxTTL);
      RunCovers(Step(s, events[0]), events[1..], maxTTL);
    }
  }

  /** Retention that covers the longest token lifetime plus the clock skew never costs a live token its key,
      whatever the starts, forced or due rotations and prunes, and whichever of such retentions each start is given. */
  lemma RetentionCoversLiveTokens(s: State, events: seq<Event>, maxTTL: int)
    requires Init(s) && IsRun(s, events) && Careful(events, maxTTL)
    ensures LiveTokensVerify(After(s, events))
  {
    RunCovers(s, events, maxTTL);
    if events != [] {
      StaysLoaded(s, events);
    }
  }

  // ---- The converse: shorter retention loses a live token ----

  function Fresh(): State {
    State(SECOND, None, None, {}, {})
  }

  function FirstSet(): KeySet {
    Generated("a", SECOND)
  }

  function SecondSet(): KeySet {
    KeySet("b", [NewKey("a", SECOND).(retiredAt := 1), NewKey("b", SECOND)])
  }

  lemma FirstStart(s: State, retentionDays: int)
    requires s == Fresh()
    ensures var e := Start(SECOND, 0, retentionDays, false, "a");
      Enabled(s, e) && Inv(Step(s, e))
      && Step(s, e) == State(SECOND, Some(FirstSet()), Some(Loaded("a", {"a"})), {}, {"a"})
  {
    hide Build, Configs, RotatedAndPruned, Sound;
    var e := Start(SECOND, 0, retentionDays, false, "a");
    StepInv(s, e);
    StartRenews(s, e);
    KeptWhole("a", FirstSet().keys, Unix(SECOND - retentionDays * DAY * SECOND));
    assert KeyIds(FirstSet().keys) == {"a"};
  }

  lemma ForcedStart(s: State, retentionDays: int)
    requires Inv(s) && s.now == SECOND && s.stored == Some(FirstSet()) && s.ids == {"a"} && retentionDays >= 0
    ensures var e := Start(SECOND, 0, retentionDays, true, "b");
      Enabled(s, e) && Inv(Step(s, e)) && Step(s, e).stored == Some(SecondSet())
      && Step(s, e).now == SECOND && Step(s, e).ids == {"a", "b"} && Step(s, e).tokens == s.tokens
  {
    hide Inv, Build, Configs, RotatedAndPruned, WithoutStale, KeyIds, Sound;
    var e := Start(SECOND, 0, retentionDays, true, "b");
    StepInv(s, e);
    StartRenews(s, e);
    assert Rotated(FirstSet(), "b", SECOND) == SecondSet();
    var cutoff := Unix(SECOND - retentionDays * DAY * SECOND);
    assert cutoff <= 1;
    KeptWhole("b", SecondSet().keys, cutoff);
  }

  lemma {:induction false} KeptWhole(active: string, keys: seq<ManagedKey>, cutoff: int)
    requires forall k :: k in keys ==> !Stale(active, k, cutoff)
    ensures WithoutStale(active, keys, cutoff) == keys
  {
    hide Stale;
    if keys != [] {
      var front, last := keys[..|keys| - 1], keys[|keys| - 1];
      assert keys == front + [last];
      KeptWhole(active, front, cutoff);
    }
  }

  lemma LastStart(s: State, retentionDays: int, ttl: int)
    requires Inv(s) && s.now == SECOND && s.stored == Some(SecondSet()) && s.ids == {"a", "b"}
    requires ttl > 0 && ttl % SECOND == 0 && !Covers(retentionDays, ttl)
    ensures var e := Start(SECOND + ttl + SKEW, 0, retentionDays, false, "c");
      Enabled(s, e) && Step(s, e).now == SECOND + ttl + SKEW && Step(s, e).tokens == s.tokens
      && Step(s, e).loaded.Some? && "a" !in Step(s, e).loaded.value.verify
  {
    hide Build, Configs, RotatedAndPruned, Sound;
    var e := Start(SECOND + ttl + SKEW, 0, retentionDays, false, "c");
    StepInv(s, e);
    StartRenews(s, e);
    assert !ShouldRotate(SecondSet().keys[1], 0, false, e.at);
    var cutoff := Unix(e.at - retentionDays * DAY * SECOND);
    assert cutoff >= 2;
    WithoutStaleKeeps("b", SecondSet().keys, cutoff);
    assert Renewed(s, e) == SecondSet() by {
      assert SecondSet().keys[1..][0].id == "b";
    }
  }

  // Issue, rotate by force at the same moment, start again at the last moment the token is accepted
  lemma ShortRetentionLosesTokens(retentionDays: int, ttl: int) returns (events: seq<Event>)
    requires ttl > 0 && ttl % SECOND == 0 && !Covers(retentionDays, ttl)
    ensures Init(Fresh()) && IsRun(Fresh(), events) && Follows(events, retentionDays, ttl)
    ensures !LiveTokensVerify(After(Fresh(), events))
  {
    hide Inv, Step, FirstSet, SecondSet;
    var e1, e2 := Start(SECOND, 0, retentionDays, false, "a"), Issue(SECOND, ttl);
    var e3, e4 := Start(SECOND, 0, retentionDays, true, "b"), Start(SECOND + ttl + SKEW, 0, retentionDays, false, "c");
    events := [e1, e2, e3, e4];
    FirstStart(Fresh(), retentionDays);
    var s1 := Step(Fresh(), e1);
    var token := Token("a", SECOND, Unix(SECOND + ttl));
    IssueStep(s1, ttl);
    var s2 := Step(s1, e2);
    ForcedStart(s2, retentionDays);
    var s3 := Step(s2, e3);
    LastStart(s3, retentionDays, ttl);
    var s4 := Step(s3, e4);
    assert events[1..] == [e2, e3, e4] && events[1..][1..] == [e3, e4] && events[1..][1..][1..] == [e4];
    assert IsRun(s3, [e4]) && After(s3, [e4]) == s4 by { assert [e4][1..] == []; }
    assert IsRun(s2, [e3, e4]) && After(s2, [e3, e4]) == s4 by { assert [e3, e4][1..] == [e4]; }
    assert IsRun(s1, [e2, e3, e4]) && After(s1, [e2, e3, e4]) == s4;
    assert After(Fresh(), events) == s4;
    assert token in s4.tokens && !Expired(token, s4.now);
  }

  lemma IssueStep(s: State, ttl: int)
    requires Inv(s) && s.now == SECOND && s.loaded.Some? && s.loaded.value.active == "a" && ttl > 0
    ensures var e := Issue(SECOND, ttl);
      Enabled(s, e) && Inv(Step(s, e))
      && Step(s, e) == s.(tokens := s.tokens + {Token("a", SECOND, Unix(SECOND + ttl))})
  {
    StepInv(s, Issue(SECOND, ttl));
  }

  /** Retention is safe in every run if and only if it is disabled or at least the token lifetime plus the skew. */
  lemma RetentionIsExact(retentionDays: int, ttl: int)
    requires ttl > 0 && ttl % SECOND == 0
    ensures Covers(retentionDays, ttl) <==>
              forall s, events :: Init(s) && IsRun(s, events) && Follows(events, retentionDays, ttl) ==>
                LiveTokensVerify(After(s, events))
  {
    if Covers(retentionDays, ttl) {
      forall s, events | Init(s) && IsRun(s, events) && Follows(events, retentionDays, ttl)
        ensures LiveTokensVerify(After(s, events))
      {
        assert Careful(events, ttl);
        RetentionCoversLiveTokens(s, events, ttl);
      }
    } else {
      var events := ShortRetentionLosesTokens(retentionDays, ttl);
    }
  }
}
