/** Pruning, lazy clearing and sweeping are not observable: a limiter that keeps every failure, and whose locks end by
    themselves when their time is up, gives the same answers. */
module LimiterTransparency {
  import opened Entities
  import opened RateLimiter

  // The limiter without housekeeping: all failures since the last lock ended or login succeeded, and the lock
  datatype Ledger = Ledger(all: seq<int>, lockedUntil: Option<int>)

  // A lock ends when its time is up, and the failures before it with it, whether or not anybody calls
  function Current(r: Ledger, now: int): Ledger {
    if r.lockedUntil.Some? && r.lockedUntil.value <= now then Ledger([], None) else r
  }

  predicate LedgerLocked(r: Ledger, now: int) {
    Current(r, now).lockedUntil.Some?
  }

  function LedgerRetry(r: Ledger, now: int): int {
    if LedgerLocked(r, now) then r.lockedUntil.value - now else 0
  }

  // Only failures and successes change the ledger
  function LedgerApply(l: Limits, r: Ledger, ev: Event): Ledger {
    match ev
    case Allow(_, _) => r
    case Record(_, t) =>
      var c := Current(r, t);
      Ledger(c.all + [t],
             if |Recent(c.all, t - l.window)| + 1 >= l.maxAttempts then Some(t + l.lockout) else c.lockedUntil)
    case Success(_) => Ledger([], None)
    case Sweep(_, _) => r
  }

  function LedgerAt(l: Limits, trace: seq<Event>, i: nat): Ledger
    requires i <= |trace|
  {
    if i == 0 then Ledger([], None) else LedgerApply(l, LedgerAt(l, trace, i - 1), trace[i - 1])
  }

  // Every allow gives the answer and the retry time of the ledger
  ghost predicate Transparent(l: Limits, trace: seq<Event>) {
    forall i: nat :: i < |trace| && trace[i].Allow? ==>
      && Locked(EntryAt(l, trace, i), trace[i].t) == LedgerLocked(LedgerAt(l, trace, i), trace[i].t)
      && RetryAfter(EntryAt(l, trace, i), trace[i].t) == LedgerRetry(LedgerAt(l, trace, i), trace[i].t)
  }

  lemma {:induction false} RecentTwice(failures: seq<int>, c: int, d: int)
    requires c <= d
    ensures Recent(Recent(failures, c), d) == Recent(failures, d)
  {
    if failures != [] {
      var front, last := failures[..|failures| - 1], failures[|failures| - 1];
      RecentTwice(front, c, d);
      if last > c {
        RecentAppend(Recent(front, c), last, d);
      } else {
        assert Recent(front, c) + [] == Recent(front, c);
      }
    }
  }

  lemma RecentAppend(failures: seq<int>, t: int, c: int)
    ensures Recent(failures + [t], c) == Recent(failures, c) + if t > c then [t] else []
  {
    assert (failures + [t])[..|failures|] == failures;
  }

  lemma {:induction false} NoneRecent(failures: seq<int>, c: int)
    requires forall i :: 0 <= i < |failures| ==> !(failures[i] > c)
    ensures Recent(failures, c) == []
  {
    if failures != [] {
      NoneRecent(failures[..|failures| - 1], c);
    }
  }

  // ---- Disciplined callers ----

  // The locks are the same, except that the entry may have lost one whose time is up
  ghost predicate SameLock(e: Option<Entry>, r: Ledger, now: int) {
    if LockOf(e).Some? then r.lockedUntil == LockOf(e) else !LedgerLocked(r, now)
  }

  // The entry and the ledger agree on what can still matter at clock now
  ghost predicate Agree(l: Limits, e: Option<Entry>, r: Ledger, now: int) {
    && SameLock(e, r, now)
    && (LockOf(e).None? ==> Recent(Failures(e), now - l.window) == Recent(Current(r, now).all, now - l.window))
  }

  lemma AgreeLater(l: Limits, e: Option<Entry>, r: Ledger, now: int, later: int)
    requires Agree(l, e, r, now) && now <= later
    ensures Agree(l, e, r, later)
  {
    hide Recent;
    RecentTwice(Failures(e), now - l.window, later - l.window);
    RecentTwice(Current(r, now).all, now - l.window, later - l.window);
  }

  lemma AgreeRecord(l: Limits, e: Option<Entry>, r: Ledger, id: nat, t: int)
    requires Agree(l, e, r, t) && LockOf(e).None?
    ensures Agree(l, Apply(l, e, Record(id, t)), LedgerApply(l, r, Record(id, t)), t)
  {
    hide Recent;
    var cutoff := t - l.window;
    RecentTwice(Failures(e), cutoff, cutoff);
    RecentAppend(Recent(Failures(e), cutoff), t, cutoff);
    RecentAppend(Current(r, t).all, t, cutoff);
  }

  lemma AgreeStep(l: Limits, e: Option<Entry>, r: Ledger, ev: Event)
    requires Agree(l, e, r, ev.t)
    requires ev.Sweep? ==> ev.tick <= ev.t
    requires ev.Record? ==> LockOf(e).None?
    ensures Agree(l, Apply(l, e, ev), LedgerApply(l, r, ev), ev.t)
  {
    hide Recent;
    NoneRecent([], ev.t - l.window);
    if ev.Record? {
      AgreeRecord(l, e, r, ev.id, ev.t);
    } else if ev.Sweep? && e.Some? && Idle(l, e.value, ev.tick) {
      NoneRecent(e.value.failures, ev.t - l.window);
    }
  }

  // Event k set a lock
  predicate SetsLock(l: Limits, trace: seq<Event>, k: nat)
    requires k < |trace|
  {
    trace[k].Record? && LockOf(EntryAt(l, trace, k + 1)).Some?
  }

  // The failure at i follows an admission of the same caller at j, with no lock set in between
  ghost predicate Follows(l: Limits, trace: seq<Event>, j: nat, i: nat)
    requires i < |trace|
  {
    && j < i && trace[i].Record? && Admitted(l, trace, j) && trace[j].id == trace[i].id
    && forall k: nat :: j < k < i ==> !SetsLock(l, trace, k)
  }

  ghost predicate Disciplined(l: Limits, trace: seq<Event>) {
    forall i: nat :: i < |trace| && trace[i].Record? ==> exists j: nat :: Follows(l, trace, j, i)
  }

  // After an admission there is no lock until a failure sets one
  lemma {:induction false} UnlockedSince(l: Limits, trace: seq<Event>, j: nat, q: nat)
    requires Admitted(l, trace, j) && j < q <= |trace|
    requires forall k: nat :: j < k < q ==> !SetsLock(l, trace, k)
    ensures LockOf(EntryAt(l, trace, q)).None?
    decreases q
  {
    hide AfterFailure;
    if q > j + 1 {
      UnlockedSince(l, trace, j, q - 1);
      assert !SetsLock(l, trace, q - 1);
    }
  }

  lemma {:induction false} AgreeAt(l: Limits, trace: seq<Event>, i: nat, now: int)
    requires WellTimed(trace) && Disciplined(l, trace) && i <= |trace| && (i > 0 ==> trace[i - 1].t <= now)
    ensures Agree(l, EntryAt(l, trace, i), LedgerAt(l, trace, i), now)
    decreases i
  {
    hide Apply, LedgerApply;
    if i > 0 {
      var ev := trace[i - 1];
      var e, r := EntryAt(l, trace, i - 1), LedgerAt(l, trace, i - 1);
      AgreeAt(l, trace, i - 1, ev.t);
      hide Agree;
      if ev.Record? {
        var j: nat :| Follows(l, trace, j, i - 1);
        UnlockedSince(l, trace, j, i - 1);
      }
      AgreeStep(l, e, r, ev);
      AgreeLater(l, EntryAt(l, trace, i), LedgerAt(l, trace, i), ev.t, now);
    }
  }

  // Equal locks are equal answers
  lemma SameAnswer(e: Option<Entry>, r: Ledger, now: int)
    requires SameLock(e, r, now)
    ensures Locked(e, now) == LedgerLocked(r, now) && RetryAfter(e, now) == LedgerRetry(r, now)
  {
  }

  /** Housekeeping is transparent: if every failure follows an admission of its caller with no lock set in between,
      each allow gives the answer and the retry time of the ledger, whatever was pruned, cleared or swept. */
  lemma HousekeepingIsTransparent(l: Limits, trace: seq<Event>)
    requires WellTimed(trace) && Disciplined(l, trace)
    ensures Transparent(l, trace)
  {
    hide Recent, Disciplined, EntryAt, LedgerAt, Locked, LedgerLocked, RetryAfter, LedgerRetry;
    forall i: nat | i < |trace| && trace[i].Allow?
      ensures Locked(EntryAt(l, trace, i), trace[i].t) == LedgerLocked(LedgerAt(l, trace, i), trace[i].t)
      ensures RetryAfter(EntryAt(l, trace, i), trace[i].t) == LedgerRetry(LedgerAt(l, trace, i), trace[i].t)
    {
      AgreeAt(l, trace, i, trace[i].t);
      SameAnswer(EntryAt(l, trace, i), LedgerAt(l, trace, i), trace[i].t);
    }
  }

  // ---- Limits under which nothing shows ----

  // A single failure locks, or no lock is ever set, or no lock is ever in force
  predicate Degenerate(l: Limits) {
    l.window <= 0 || l.maxAttempts <= 1 || l.lockout <= 0
  }

  lemma {:induction false} EveryFailureLocks(l: Limits, trace: seq<Event>, i: nat, now: int)
    requires WellTimed(trace) && l.maxAttempts <= 1 && i <= |trace| && (i > 0 ==> trace[i - 1].t <= now)
    ensures SameLock(EntryAt(l, trace, i), LedgerAt(l, trace, i), now)
    decreases i
  {
    hide Recent;
    if i > 0 {
      EveryFailureLocks(l, trace, i - 1, trace[i - 1].t);
    }
  }

  predicate NoneAfter(failures: seq<int>, now: int) {
    forall i :: 0 <= i < |failures| ==> failures[i] <= now
  }

  // No lock is in force, and no failure lies in the future
  ghost predicate Open(e: Option<Entry>, r: Ledger, now: int) {
    && !Locked(e, now) && !LedgerLocked(r, now)
    && NoneAfter(Failures(e), now) && NoneAfter(r.all, now)
  }

  lemma {:induction false} RecentIsPart(failures: seq<int>, cutoff: int, now: int)
    requires NoneAfter(failures, now)
    ensures NoneAfter(Recent(failures, cutoff), now)
  {
    if failures != [] {
      RecentIsPart(failures[..|failures| - 1], cutoff, now);
    }
  }

  lemma OpenStep(l: Limits, e: Option<Entry>, r: Ledger, ev: Event)
    requires Open(e, r, ev.t) && (l.lockout <= 0 || (l.window <= 0 && l.maxAttempts >= 2))
    ensures Open(Apply(l, e, ev), LedgerApply(l, r, ev), ev.t)
  {
    hide Recent;
    if ev.Record? {
      RecentIsPart(Failures(e), ev.t - l.window, ev.t);
      if l.window <= 0 {
        NoneRecent(Failures(e), ev.t - l.window);
        NoneRecent(Current(r, ev.t).all, ev.t - l.window);
      }
    }
  }

  lemma {:induction false} NothingLocks(l: Limits, trace: seq<Event>, i: nat, now: int)
    requires WellTimed(trace) && (l.lockout <= 0 || (l.window <= 0 && l.maxAttempts >= 2))
    requires i <= |trace| && (i > 0 ==> trace[i - 1].t <= now)
    ensures Open(EntryAt(l, trace, i), LedgerAt(l, trace, i), now)
    decreases i
  {
    hide Apply, LedgerApply;
    if i > 0 {
      NothingLocks(l, trace, i - 1, trace[i - 1].t);
      OpenStep(l, EntryAt(l, trace, i - 1), LedgerAt(l, trace, i - 1), trace[i - 1]);
    }
  }

  lemma DegenerateLimitsAreTransparent(l: Limits, trace: seq<Event>)
    requires Degenerate(l) && WellTimed(trace)
    ensures Transparent(l, trace)
  {
    hide EntryAt, LedgerAt;
    forall i: nat | i < |trace| && trace[i].Allow?
      ensures Locked(EntryAt(l, trace, i), trace[i].t) == LedgerLocked(LedgerAt(l, trace, i), trace[i].t)
      ensures RetryAfter(EntryAt(l, trace, i), trace[i].t) == LedgerRetry(LedgerAt(l, trace, i), trace[i].t)
    {
      if l.maxAttempts <= 1 {
        EveryFailureLocks(l, trace, i, trace[i].t);
      } else {
        NothingLocks(l, trace, i, trace[i].t);
      }
    }
  }
}
