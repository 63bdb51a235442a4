/** How many keys rotation and pruning can leave: with a rotation period of P days, a retention of R days
    and no forced rotation, never more than R/P + 2, and that many are reached. */
module KeyCount {
  import opened Entities
  import opened SigningKeys
  import opened KeyLifecycle
  import opened KeyRetention

  predicate Scheduled(events: seq<Event>, period: int, retention: int) {
    forall i :: 0 <= i < |events| && events[i].Start? ==>
      events[i].rotationDays == period && events[i].retentionDays == retention && !events[i].force
  }

  // Each key was retired when the next one was created, at least a gap (in seconds) after its own creation
  predicate Chained(ks: KeySet, gap: int, now: int) {
    && ks.keys != []
    && ks.keys[0].createdAt > 0
    && ks.keys[|ks.keys| - 1].id == ks.active
    && ks.keys[|ks.keys| - 1].createdAt <= Unix(now)
    && forall i :: 0 < i < |ks.keys| ==>
         && ks.keys[i - 1].retiredAt == ks.keys[i].createdAt
         && ks.keys[i].createdAt >= ks.keys[i - 1].createdAt + gap
  }

  predicate Small(keys: seq<ManagedKey>, period: int, retention: int)
    requires period > 0
  {
    |keys| <= retention / period + 2
  }

  lemma {:induction false} Spacing(ks: KeySet, gap: int, now: int, i: nat, j: nat)
    requires gap > 0 && Chained(ks, gap, now) && i <= j < |ks.keys|
    ensures ks.keys[j].createdAt >= ks.keys[i].createdAt + (j - i) * gap
    ensures ks.keys[j].createdAt >= ks.keys[i].createdAt
    decreases j
  {
    if i < j {
      Spacing(ks, gap, now, i, j - 1);
      assert ks.keys[j].createdAt >= ks.keys[j - 1].createdAt + gap;
      assert (j - i) * gap == (j - 1 - i) * gap + gap;
    }
  }

  lemma {:induction false} AllStaleGone(active: string, keys: seq<ManagedKey>, cutoff: int)
    requires forall i :: 0 <= i < |keys| ==> Stale(active, keys[i], cutoff)
    ensures WithoutStale(active, keys, cutoff) == []
  {
    if keys != [] {
      AllStaleGone(active, keys[..|keys| - 1], cutoff);
    }
  }

  // Pruning takes a prefix away when an older key is stale whenever a newer one is
  lemma {:induction false} PruneDropsPrefix(active: string, keys: seq<ManagedKey>, cutoff: int) returns (d: nat)
    requires forall i, j :: 0 <= i < j < |keys| && Stale(active, keys[j], cutoff) ==> Stale(active, keys[i], cutoff)
    ensures d <= |keys| && WithoutStale(active, keys, cutoff) == keys[d..]
    ensures forall i :: d <= i < |keys| ==> !Stale(active, keys[i], cutoff)
    ensures d == |keys| > 0 ==> Stale(active, keys[|keys| - 1], cutoff)
  {
    hide Stale;
    if keys == [] {
      d := 0;
    } else if Stale(active, keys[|keys| - 1], cutoff) {
      AllStaleGone(active, keys, cutoff);
      d := |keys|;
    } else {
      var init, last := keys[..|keys| - 1], keys[|keys| - 1];
      assert forall i :: 0 <= i < |init| ==> init[i] == keys[i];
      d := PruneDropsPrefix(active, init, cutoff);
      assert init[d..] + [last] == keys[d..];
    }
  }

  lemma ActiveIsLast(ks: KeySet)
    requires Distinct(ks.keys) && ks.keys != [] && ks.keys[|ks.keys| - 1].id == ks.active
    ensures IndexOf(ks.keys, ks.active) == |ks.keys| - 1
  {
    IndexOfFinds(ks.keys, ks.active);
  }

  lemma RotationChains(ks: KeySet, newID: string, period: int, now: int)
    requires period > 0 && Chained(ks, period * DAY, now) && Distinct(ks.keys)
    requires ShouldRotate(ks.keys[|ks.keys| - 1], period, false, now)
    ensures Chained(Rotated(ks, newID, now), period * DAY, now)
  {
    ActiveIsLast(ks);
    Spacing(ks, period * DAY, now, 0, |ks.keys| - 1);
  }

  lemma SuffixChains(ks: KeySet, gap: int, now: int, d: nat)
    requires gap > 0 && Chained(ks, gap, now) && d < |ks.keys|
    ensures Chained(ks.(keys := ks.keys[d..]), gap, now)
  {
    Spacing(ks, gap, now, 0, d);
  }

  lemma SuffixIsShort(ks: KeySet, gap: int, now: int, span: int, d: nat)
    requires gap > 0 && span >= 0 && Chained(ks, gap, now) && Distinct(ks.keys) && d < |ks.keys|
    requires !Stale(ks.active, ks.keys[d], Unix(now) - span)
    ensures |ks.keys| - d >= 2 ==> (|ks.keys| - d - 2) * gap <= span
  {
    var n := |ks.keys|;
    if d + 1 < n {
      Spacing(ks, gap, now, 0, d + 1);
      Spacing(ks, gap, now, d + 1, n - 1);
      assert ks.keys[d].retiredAt == ks.keys[d + 1].createdAt;
    }
  }

  lemma PruningChains(ks: KeySet, period: int, retention: int, now: int)
    requires period > 0 && retention >= 0 && Chained(ks, period * DAY, now) && Distinct(ks.keys)
    ensures Chained(Pruned(ks, retention, now), period * DAY, now)
    ensures Small(Pruned(ks, retention, now).keys, period, retention)
  {
    hide Distinct, Stale, WithoutStale;
    var cutoff := Unix(now - retention * DAY * SECOND);
    assert cutoff == Unix(now) - retention * DAY;
    forall i, j | 0 <= i < j < |ks.keys| && Stale(ks.active, ks.keys[j], cutoff)
      ensures Stale(ks.active, ks.keys[i], cutoff)
    {
      OlderIsStale(ks, period * DAY, now, cutoff, i, j);
    }
    var d := PruneDropsPrefix(ks.active, ks.keys, cutoff);
    ActiveIsKept(ks.active, ks.keys[|ks.keys| - 1], cutoff);
    SuffixChains(ks, period * DAY, now, d);
    SuffixIsShort(ks, period * DAY, now, retention * DAY, d);
    if |ks.keys| - d >= 2 {
      Quotient(|ks.keys| - d - 2, period, retention);
    }
  }

  lemma ActiveIsKept(active: string, key: ManagedKey, cutoff: int)
    requires key.id == active
    ensures !Stale(active, key, cutoff)
  {
  }

  lemma OlderIsStale(ks: KeySet, gap: int, now: int, cutoff: int, i: nat, j: nat)
    requires gap > 0 && Chained(ks, gap, now) && Distinct(ks.keys)
    requires i < j < |ks.keys| && Stale(ks.active, ks.keys[j], cutoff)
    ensures Stale(ks.active, ks.keys[i], cutoff)
  {
    assert j < |ks.keys| - 1;
    Spacing(ks, gap, now, 0, i + 1);
    Spacing(ks, gap, now, i + 1, j + 1);
  }

  lemma Quotient(k: nat, period: int, retention: int)
    requires period > 0 && k * (period * DAY) <= retention * DAY
    ensures k <= retention / period
  {
    assert k * (period * DAY) == (k * period) * DAY;
    assert k * period <= retention;
    var q := retention / period;
    assert retention == q * period + retention % period;
    assert (k - q) * period == k * period - q * period;
    NoWholePeriod(k - q, period);
  }

  lemma NoWholePeriod(k: int, period: int)
    requires period > 0 && k * period < period
    ensures k <= 0
  {
    assert (k - 1) * period == k * period - period;
  }

  ghost predicate Bounded(s: State, period: int, retention: int)
    requires period > 0
  {
    s.stored.Some? ==> Chained(s.stored.value, period * DAY, s.now) && Small(s.stored.value.keys, period, retention)
  }

  lemma StepBounded(s: State, e: Event, period: int, retention: int)
    requires period > 0 && retention >= 0
    requires Enabled(s, e) && Inv(s) && Bounded(s, period, retention) && Scheduled([e], period, retention)
    ensures Bounded(Step(s, e), period, retention)
  {
    hide Build, Configs, RotatedAndPruned, Base64Url, Pruned;
    assert [e][0] == e;
    if e.Start? {
      StartRenews(s, e);
      var ks := Renewed(s, e);
      if s.stored.Some? {
        ActiveIsLast(s.stored.value);
        assert Chained(s.stored.value, period * DAY, e.at);
        if Rotates(s.stored.value, e) {
          RotationChains(s.stored.value, e.newID, period, e.at);
        }
      }
      PruningChains(ks, period, retention, e.at);
    }
  }

  lemma {:induction false} RunBounded(s: State, events: seq<Event>, period: int, retention: int)
    requires period > 0 && retention >= 0
    requires IsRun(s, events) && Scheduled(events, period, retention) && Inv(s) && Bounded(s, period, retention)
    ensures Bounded(After(s, events), period, retention)
    decreases |events|
  {
    hide Inv, Bounded, Step;
    if events != [] {
      StepInv(s, events[0]);
      assert Scheduled([events[0]], period, retention);
      StepBounded(s, events[0], period, retention);
      RunBounded(Step(s, events[0]), events[1..], period, retention);
    }
  }

  /** In every scheduled run the stored key set has at most retention/period + 2 keys. */
  lemma KeySetStaysSmall(s: State, events: seq<Event>, period: int, retention: int)
    requires period > 0 && retention >= 0
    requires Init(s) && IsRun(s, events) && Scheduled(events, period, retention)
    ensures After(s, events).stored.Some? ==> |After(s, events).stored.value.keys| <= retention / period + 2
  {
    RunBounded(s, events, period, retention);
  }

  // ---- The bound is reached ----

  function Name(k: nat): string {
    seq(k + 1, _ => 'a')
  }

  // A start that rotates the key exactly when it is due
  function Punctual(period: int, retention: int, k: nat): Event {
    Start((1 + k * (period * DAY)) * SECOND, period, retention, false, Name(k))
  }

  lemma {:induction false} AfterOneMore(s: State, events: seq<Event>, e: Event)
    requires IsRun(s, events) && Enabled(After(s, events), e)
    ensures IsRun(s, events + [e]) && After(s, events + [e]) == Step(After(s, events), e)
    decreases |events|
  {
    hide Step;
    if events == [] {
      assert [e][1..] == [];
      assert events + [e] == [e];
    } else {
      assert (events + [e])[1..] == events[1..] + [e];
      AfterOneMore(Step(s, events[0]), events[1..], e);
    }
  }

  // k rotations, nothing pruned
  predicate GrownSet(ks: KeySet, gap: int, k: nat) {
    && |ks.keys| == k + 1
    && ks.keys[k].id == ks.active
    && ks.keys[k].createdAt == 1 + k * gap
    && forall key :: key in ks.keys ==> key.retiredAt == 0 || key.retiredAt >= 1 + gap
  }

  ghost predicate Grown(s: State, gap: int, k: nat) {
    && Inv(s) && s.now == (1 + k * gap) * SECOND
    && s.stored.Some? && GrownSet(s.stored.value, gap, k)
    && (forall id :: id in s.ids ==> |id| <= k + 1)
  }

  lemma RotationGrows(ks: KeySet, newID: string, gap: int, k: nat)
    requires gap > 0 && GrownSet(ks, gap, k) && Distinct(ks.keys)
    ensures GrownSet(Rotated(ks, newID, (1 + (k + 1) * gap) * SECOND), gap, k + 1)
  {
    ActiveIsLast(ks);
    assert (k + 1) * gap == k * gap + gap && k * gap >= 0;
    var at := 1 + (k + 1) * gap;
    var retired := ks.keys[k := ks.keys[k].(retiredAt := at)];
    assert Rotated(ks, newID, at * SECOND).keys == retired + [NewKey(newID, at * SECOND)];
    forall key | key in retired
      ensures key.retiredAt == 0 || key.retiredAt >= 1 + gap
    {
      var i :| 0 <= i < |retired| && retired[i] == key;
      assert ks.keys[i] in ks.keys;
    }
  }

  lemma Sprout(period: int, retention: int)
    requires period > 0 && retention >= 0
    ensures Enabled(Fresh(), Punctual(period, retention, 0))
    ensures Grown(Step(Fresh(), Punctual(period, retention, 0)), period * DAY, 0)
  {
    hide Build, Configs, RotatedAndPruned, Sound;
    var e := Punctual(period, retention, 0);
    StepInv(Fresh(), e);
    StartRenews(Fresh(), e);
    KeptWhole(e.newID, Generated(e.newID, e.at).keys, Unix(e.at - retention * DAY * SECOND));
  }

  lemma Grow(s: State, period: int, retention: int, k: nat)
    requires period > 0 && retention >= 0 && k * period <= retention && Grown(s, period * DAY, k)
    ensures Enabled(s, Punctual(period, retention, k + 1))
    ensures Grown(Step(s, Punctual(period, retention, k + 1)), period * DAY, k + 1)
  {
    hide Build, Configs, RotatedAndPruned, Base64Url, Rotated, Rotates, GrownSet, Inv;
    var e, gap, ks := Punctual(period, retention, k + 1), period * DAY, s.stored.value;
    assert (k + 1) * gap == k * gap + gap;
    NameIsBase64(k + 1);
    StepInv(s, e);
    StartRenews(s, e);
    DueRotates(s, period, retention, k);
    RotationGrows(ks, e.newID, gap, k);
    GrownIsKept(Rotated(ks, e.newID, e.at), period, retention, k);
  }

  lemma DueRotates(s: State, period: int, retention: int, k: nat)
    requires period > 0 && Inv(s) && s.stored.Some? && GrownSet(s.stored.value, period * DAY, k)
    ensures Distinct(s.stored.value.keys) && Rotates(s.stored.value, Punctual(period, retention, k + 1))
  {
    hide Base64Url, Name;
    ActiveIsLast(s.stored.value);
    assert (k + 1) * (period * DAY) == k * (period * DAY) + period * DAY;
    assert k * (period * DAY) >= 0;
  }

  lemma GrownIsKept(ks: KeySet, period: int, retention: int, k: nat)
    requires period > 0 && retention >= 0 && k * period <= retention && GrownSet(ks, period * DAY, k + 1)
    ensures Pruned(ks, retention, (1 + (k + 1) * (period * DAY)) * SECOND) == ks
  {
    var gap := period * DAY;
    var at := (1 + (k + 1) * gap) * SECOND;
    assert (k + 1) * gap == k * gap + gap;
    assert k * gap == (k * period) * DAY;
    KeptWhole(ks.active, ks.keys, Unix(at - retention * DAY * SECOND));
  }

  lemma NameIsBase64(k: nat)
    ensures Base64Url(Name(k))
  {
  }

  lemma {:induction false} FullRun(period: int, retention: int, k: nat) returns (events: seq<Event>)
    requires period > 0 && retention >= 0 && (k - 1) * period <= retention
    ensures IsRun(Fresh(), events) && Scheduled(events, period, retention)
    ensures Grown(After(Fresh(), events), period * DAY, k)
    decreases k
  {
    hide Step, Grown;
    if k == 0 {
      Sprout(period, retention);
      AfterOneMore(Fresh(), [], Punctual(period, retention, 0));
      events := [] + [Punctual(period, retention, 0)];
    } else {
      assert (k - 2) * period == (k - 1) * period - period;
      events := FullRun(period, retention, k - 1);
      Grow(After(Fresh(), events), period, retention, k - 1);
      AfterOneMore(Fresh(), events, Punctual(period, retention, k));
      events := events + [Punctual(period, retention, k)];
    }
  }

  /** A broker restarted exactly when each rotation is due does hold retention/period + 2 keys. */
  lemma KeyBoundIsTight(period: int, retention: int) returns (events: seq<Event>)
    requires period > 0 && retention >= 0
    ensures Init(Fresh()) && IsRun(Fresh(), events) && Scheduled(events, period, retention)
    ensures After(Fresh(), events).stored.Some?
    ensures |After(Fresh(), events).stored.value.keys| == retention / period + 2
  {
    hide Step;
    var q := retention / period;
    assert retention == q * period + retention % period;
    events := FullRun(period, retention, q + 1);
  }
}
