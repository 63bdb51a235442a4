/** For which limits pruning, lazy clearing and sweeping can never be seen, however callers overlap. */
module LimiterExactness {
  import opened Entities
  import opened RateLimiter
  import opened RateBound
  import opened LimiterTransparency

  // Each caller asks once, and records at most once, after it was admitted
  ghost predicate Orderly(l: Limits, trace: seq<Event>) {
    && OneCallPerId(trace)
    && (forall i: nat :: i < |trace| && trace[i].Record? ==>
        exists j: nat :: Admitted(l, trace, j) && RecordOf(trace, j, i))
    && (forall i, j :: 0 <= i < j < |trace| && trace[i].Record? && trace[j].Record? ==> trace[i].id != trace[j].id)
  }

  // ---- A run that shows clearing, and with a sweep shows sweeping, for all other limits ----

  // How many sweeps the run holds
  function Sweeps(swept: bool): nat {
    if swept then 1 else 0
  }

  // m + 1 callers are admitted and m of them fail at once; the lock runs out, and may be swept; the straggler fails;
  // m - 1 more callers ask and fail one after the other; then one more caller asks
  function Straggler(m: nat, late: int, swept: bool): seq<Event> {
    seq(4 * m + 1 + Sweeps(swept), (i: int) =>
      if i < 0 then Success(0)
      else if i <= m then Allow(i, 0)
      else if i <= 2 * m then Record(i - m - 1, 0)
      else if i < 2 * m + 1 + Sweeps(swept) then Sweep(late, late)
      else if i == 2 * m + 1 + Sweeps(swept) then Record(m, late)
      else if (i - Sweeps(swept)) % 2 == 0 then Allow((i - Sweeps(swept)) / 2, late)
      else Record((i - Sweeps(swept) - 1) / 2, late))
  }

  // How many events precede the caller of the k-th pair
  function Before(m: nat, swept: bool, k: nat): nat {
    2 * m + 2 + Sweeps(swept) + 2 * k
  }

  lemma Pair(m: nat, late: int, swept: bool, k: nat)
    requires k < m
    ensures |Straggler(m, late, swept)| == Before(m, swept, m - 1) + 1
    ensures Before(m, swept, k) < |Straggler(m, late, swept)|
    ensures Straggler(m, late, swept)[Before(m, swept, k)] == Allow(m + 1 + k, late)
    ensures k < m - 1 ==> Straggler(m, late, swept)[Before(m, swept, k) + 1] == Record(m + 1 + k, late)
  {
    var i := Before(m, swept, k);
    assert i - Sweeps(swept) == 2 * (m + 1 + k);
    assert Straggler(m, late, swept)[i] == Allow(m + 1 + k, late);
    if k < m - 1 {
      assert Straggler(m, late, swept)[i + 1] == Record(m + 1 + k, late);
    }
  }

  function Times(t: int, n: nat): (r: seq<int>)
    ensures |r| == n && forall i :: 0 <= i < n ==> r[i] == t
  {
    if n == 0 then [] else Times(t, n - 1) + [t]
  }

  lemma NoTimes(t: int)
    ensures Times(t, 0) == []
  {
  }

  lemma {:induction false} RecentTimes(t: int, n: nat, c: int)
    ensures Recent(Times(t, n), c) == if t > c then Times(t, n) else []
  {
    if n > 0 {
      RecentTimes(t, n - 1, c);
      RecentAppend(Times(t, n - 1), t, c);
    }
  }

  // The lock that the last of n failures at t leaves
  function LockAfter(l: Limits, t: int, n: nat): Option<int> {
    if n >= l.maxAttempts then Some(t + l.lockout) else None
  }

  // One more failure at the same moment
  lemma FailAgain(l: Limits, id: nat, t: int, n: nat, e: Option<Entry>)
    requires l.window > 0 && n + 1 <= l.maxAttempts && Failures(e) == Times(t, n) && LockOf(e).None?
    ensures Apply(l, e, Record(id, t)) == Some(Entry(Times(t, n + 1), LockAfter(l, t, n + 1)))
    ensures LedgerApply(l, Ledger(Times(t, n), None), Record(id, t)) == Ledger(Times(t, n + 1), LockAfter(l, t, n + 1))
  {
    hide Recent;
    RecentTimes(t, n, t - l.window);
    assert Times(t, n) + [t] == Times(t, n + 1);
  }

  // One event from known states
  lemma Advance(l: Limits, trace: seq<Event>, i: nat)
    requires i < |trace|
    ensures EntryAt(l, trace, i + 1) == Apply(l, EntryAt(l, trace, i), trace[i])
    ensures LedgerAt(l, trace, i + 1) == LedgerApply(l, LedgerAt(l, trace, i), trace[i])
  {
  }

  predicate Telling(l: Limits, late: int) {
    l.maxAttempts >= 2 && l.window > 0 && l.lockout > 0 && late >= l.window && late >= l.lockout
  }

  lemma {:induction false} AllAdmitted(l: Limits, late: int, swept: bool, i: nat)
    requires Telling(l, late) && i <= l.maxAttempts + 1
    ensures EntryAt(l, Straggler(l.maxAttempts, late, swept), i) == None
    ensures LedgerAt(l, Straggler(l.maxAttempts, late, swept), i) == Ledger([], None)
  {
    if i > 0 {
      AllAdmitted(l, late, swept, i - 1);
    }
  }

  lemma {:induction false} FirstFailures(l: Limits, late: int, swept: bool, k: nat)
    requires Telling(l, late) && 1 <= k <= l.maxAttempts
    ensures var trace, i := Straggler(l.maxAttempts, late, swept), l.maxAttempts + 1 + k;
      && EntryAt(l, trace, i) == Some(Entry(Times(0, k), LockAfter(l, 0, k)))
      && LedgerAt(l, trace, i) == Ledger(Times(0, k), LockAfter(l, 0, k))
    decreases k
  {
    hide EntryAt, LedgerAt, Apply, LedgerApply, Times;
    var m, trace := l.maxAttempts, Straggler(l.maxAttempts, late, swept);
    if k == 1 {
      AllAdmitted(l, late, swept, m + 1);
      NoTimes(0);
    } else {
      FirstFailures(l, late, swept, k - 1);
    }
    Advance(l, trace, m + k);
    FailAgain(l, k - 1, 0, k - 1, EntryAt(l, trace, m + k));
  }

  // The straggler's failure joins the old lock, or starts a new entry if that was swept; the ledger starts afresh
  lemma Straggling(l: Limits, late: int, swept: bool)
    requires Telling(l, late)
    ensures var trace, i := Straggler(l.maxAttempts, late, swept), Before(l.maxAttempts, swept, 0);
      && EntryAt(l, trace, i) == Some(Entry(Times(late, 1), if swept then None else Some(l.lockout)))
      && LedgerAt(l, trace, i) == Ledger(Times(late, 1), None)
  {
    hide EntryAt, LedgerAt, Recent;
    var m, trace := l.maxAttempts, Straggler(l.maxAttempts, late, swept);
    FirstFailures(l, late, swept, m);
    if swept {
      Advance(l, trace, 2 * m + 1);
      assert EntryAt(l, trace, 2 * m + 2) == None;
    }
    Advance(l, trace, 2 * m + 1 + Sweeps(swept));
    NoneRecent([], late - l.window);
    RecentTimes(0, m, late - l.window);
    assert [] + [late] == Times(late, 1);
  }

  // What the entry holds when k more callers have failed: without the sweep the first of them cleared the straggler
  function Counted(l: Limits, late: int, swept: bool, k: nat): Entry {
    if swept then Entry(Times(late, k + 1), LockAfter(l, late, k + 1))
    else if k == 0 then Entry(Times(late, 1), Some(l.lockout))
    else Entry(Times(late, k), None)
  }

  // The k-th pair: the caller is admitted, and its failure is counted
  lemma OneMore(l: Limits, late: int, swept: bool, k: nat, id: nat)
    requires Telling(l, late) && k < l.maxAttempts - 1
    ensures var e := Some(Counted(l, late, swept, k));
      && !Locked(e, late)
      && Apply(l, Apply(l, e, Allow(id, late)), Record(id, late)) == Some(Counted(l, late, swept, k + 1))
  {
    hide Recent, Times;
    NoTimes(late);
    var e := Apply(l, Some(Counted(l, late, swept, k)), Allow(id, late));
    FailAgain(l, id, late, if swept then k + 1 else k, e);
  }

  lemma {:induction false} MoreFailures(l: Limits, late: int, swept: bool, k: nat)
    requires Telling(l, late) && k < l.maxAttempts
    ensures var trace, i := Straggler(l.maxAttempts, late, swept), Before(l.maxAttempts, swept, k);
      && i <= |trace|
      && EntryAt(l, trace, i) == Some(Counted(l, late, swept, k))
      && LedgerAt(l, trace, i) == Ledger(Times(late, k + 1), LockAfter(l, late, k + 1))
    decreases k
  {
    hide EntryAt, LedgerAt, Times, Straggler, Apply, Locked;
    Pair(l.maxAttempts, late, swept, k);
    if k == 0 {
      Straggling(l, late, swept);
    } else {
      var trace, i, id := Straggler(l.maxAttempts, late, swept), Before(l.maxAttempts, swept, k - 1), l.maxAttempts + k;
      MoreFailures(l, late, swept, k - 1);
      Pair(l.maxAttempts, late, swept, k - 1);
      Advance(l, trace, i);
      Advance(l, trace, i + 1);
      OneMore(l, late, swept, k - 1, id);
      FailAgain(l, id, late, k, Some(Entry(Times(late, k), None)));
    }
  }

  lemma PairIsAdmitted(l: Limits, late: int, swept: bool, k: nat)
    requires Telling(l, late) && k < l.maxAttempts - 1
    ensures Admitted(l, Straggler(l.maxAttempts, late, swept), Before(l.maxAttempts, swept, k))
  {
    hide EntryAt, Straggler, Times;
    Pair(l.maxAttempts, late, swept, k);
    MoreFailures(l, late, swept, k);
    OneMore(l, late, swept, k, 0);
  }

  // Without the sweep the code admits the last caller, with it the code refuses; the ledger refuses either way
  lemma LastCaller(l: Limits, late: int, swept: bool)
    requires Telling(l, late)
    ensures var trace, i := Straggler(l.maxAttempts, late, swept), Before(l.maxAttempts, swept, l.maxAttempts - 1);
      && |trace| == i + 1 && trace[i].Allow? && trace[i].t == late
      && Locked(EntryAt(l, trace, i), late) == swept && LedgerLocked(LedgerAt(l, trace, i), late)
  {
    hide EntryAt, LedgerAt, Times, Straggler;
    Pair(l.maxAttempts, late, swept, l.maxAttempts - 1);
    MoreFailures(l, late, swept, l.maxAttempts - 1);
  }

  // ---- The callers of the run are orderly ----

  // Where each caller asks and where it records
  lemma CallAt(m: nat, late: int, swept: bool, i: nat)
    requires i < |Straggler(m, late, swept)|
    ensures var ev := Straggler(m, late, swept)[i];
      && (ev.Allow? ==> i == if ev.id <= m then ev.id else 2 * ev.id + Sweeps(swept))
      && (ev.Record? ==> i == if ev.id < m then m + 1 + ev.id else 2 * ev.id + 1 + Sweeps(swept))
  {
  }

  lemma EachAsksOnce(m: nat, late: int, swept: bool)
    ensures OneCallPerId(Straggler(m, late, swept))
  {
    var trace := Straggler(m, late, swept);
    hide Straggler;
    forall i: nat, j: nat | i < |trace| && j < |trace| && trace[i].Allow? && trace[j].Allow?
      ensures trace[i].id == trace[j].id ==> i == j
    {
      CallAt(m, late, swept, i);
      CallAt(m, late, swept, j);
    }
  }

  lemma EachFailsOnce(m: nat, late: int, swept: bool, i: nat, j: nat)
    requires i < j < |Straggler(m, late, swept)|
    requires Straggler(m, late, swept)[i].Record? && Straggler(m, late, swept)[j].Record?
    ensures Straggler(m, late, swept)[i].id != Straggler(m, late, swept)[j].id
  {
    hide Straggler;
    CallAt(m, late, swept, i);
    CallAt(m, late, swept, j);
  }

  // The clock stands at 0 up to the first failures, and at late from then on
  lemma ClockAt(m: nat, late: int, swept: bool, i: nat)
    requires i < |Straggler(m, late, swept)|
    ensures var ev := Straggler(m, late, swept)[i];
      ev.t == (if i <= 2 * m then 0 else late) && (ev.Sweep? ==> ev.tick == late && i > 2 * m)
  {
  }

  lemma TimesRise(m: nat, late: int, swept: bool)
    requires late >= 0
    ensures WellTimed(Straggler(m, late, swept))
  {
    var trace := Straggler(m, late, swept);
    hide Straggler;
    forall i: nat | i < |trace|
      ensures trace[i].t == (if i <= 2 * m then 0 else late) && (trace[i].Sweep? ==> trace[i].tick == late && i > 2 * m)
    {
      ClockAt(m, late, swept, i);
    }
  }

  lemma EachFailsAfterAdmission(l: Limits, late: int, swept: bool, i: nat)
    requires Telling(l, late) && i < |Straggler(l.maxAttempts, late, swept)|
    requires Straggler(l.maxAttempts, late, swept)[i].Record?
    ensures var trace := Straggler(l.maxAttempts, late, swept);
      exists j: nat :: Admitted(l, trace, j) && RecordOf(trace, j, i)
  {
    var m, trace := l.maxAttempts, Straggler(l.maxAttempts, late, swept);
    CallAt(m, late, swept, i);
    if trace[i].id <= m {
      AllAdmitted(l, late, swept, trace[i].id);
      hide EntryAt;
      assert Admitted(l, trace, trace[i].id) && RecordOf(trace, trace[i].id, i);
    } else {
      var k := trace[i].id - m - 1;
      hide EntryAt, Straggler, Admitted;
      Pair(m, late, swept, k);
      PairIsAdmitted(l, late, swept, k);
      assert RecordOf(trace, Before(m, swept, k), i);
    }
  }

  lemma StragglerIsOrderly(l: Limits, late: int, swept: bool)
    requires Telling(l, late)
    ensures WellTimed(Straggler(l.maxAttempts, late, swept)) && Orderly(l, Straggler(l.maxAttempts, late, swept))
  {
    var m, trace := l.maxAttempts, Straggler(l.maxAttempts, late, swept);
    hide Straggler, Admitted, RecordOf, OneCallPerId, WellTimed;
    EachAsksOnce(m, late, swept);
    TimesRise(m, late, swept);
    forall i: nat | i < |trace| && trace[i].Record?
      ensures exists j: nat :: Admitted(l, trace, j) && RecordOf(trace, j, i)
    {
      EachFailsAfterAdmission(l, late, swept, i);
    }
    forall i, j | 0 <= i < j < |trace| && trace[i].Record? && trace[j].Record?
      ensures trace[i].id != trace[j].id
    {
      EachFailsOnce(m, late, swept, i, j);
    }
  }

  // ---- Housekeeping as a whole ----

  // The lock has run out by then, and the first failures are no longer recent
  function Late(l: Limits): int {
    if l.window >= l.lockout then l.window else l.lockout
  }

  /** For all other limits there is a run in which each caller asks once and records at most once, after its admission,
      and at the end of which the limiter admits a caller whom the ledger refuses: clearing forgot the straggler. */
  lemma StragglerIsForgotten(l: Limits) returns (trace: seq<Event>)
    requires !Degenerate(l)
    ensures WellTimed(trace) && Orderly(l, trace) && !Transparent(l, trace)
  {
    hide EntryAt, LedgerAt, Orderly, WellTimed, Straggler;
    trace := Straggler(l.maxAttempts, Late(l), false);
    StragglerIsOrderly(l, Late(l), false);
    LastCaller(l, Late(l), false);
  }

  /** Housekeeping shows in no run with orderly callers if and only if a single failure locks, or the window or the
      lockout is empty. */
  lemma TransparencyIsExact(l: Limits)
    ensures Degenerate(l) <==> forall trace :: WellTimed(trace) && Orderly(l, trace) ==> Transparent(l, trace)
  {
    hide Transparent, WellTimed, Orderly;
    if Degenerate(l) {
      forall trace | WellTimed(trace) && Orderly(l, trace)
        ensures Transparent(l, trace)
      {
        DegenerateLimitsAreTransparent(l, trace);
      }
    } else {
      var trace := StragglerIsForgotten(l);
    }
  }

  // ---- A single sweep ----

  // The run with a sweep at clock t between two parts of it
  function WithSweep(before: seq<Event>, t: int, tick: int, after: seq<Event>): seq<Event> {
    before + [Sweep(t, tick)] + after
  }

  // The sweep changes no answer and no retry time
  ghost predicate SweepUnseen(l: Limits, before: seq<Event>, t: int, tick: int, after: seq<Event>) {
    forall i: nat :: i < |after| && after[i].Allow? ==>
      var e := EntryAt(l, before + after, |before| + i);
      var f := EntryAt(l, WithSweep(before, t, tick, after), |before| + 1 + i);
      Locked(e, after[i].t) == Locked(f, after[i].t) && RetryAfter(e, after[i].t) == RetryAfter(f, after[i].t)
  }

  lemma {:induction false} LedgerOfPrefix(l: Limits, before: seq<Event>, after: seq<Event>, i: nat)
    requires i <= |before|
    ensures LedgerAt(l, before + after, i) == LedgerAt(l, before, i)
  {
    if i > 0 {
      LedgerOfPrefix(l, before, after, i - 1);
    }
  }

  // The ledger knows no sweeps
  lemma {:induction false} LedgerIgnoresSweep(l: Limits, before: seq<Event>, t: int, tick: int, after: seq<Event>,
                                              i: nat)
    requires i <= |after|
    ensures LedgerAt(l, before + after, |before| + i) ==
            LedgerAt(l, WithSweep(before, t, tick, after), |before| + 1 + i)
    decreases i
  {
    if i == 0 {
      LedgerOfPrefix(l, before, after, |before|);
      assert WithSweep(before, t, tick, after) == before + ([Sweep(t, tick)] + after);
      LedgerOfPrefix(l, before, [Sweep(t, tick)] + after, |before|);
    } else {
      LedgerIgnoresSweep(l, before, t, tick, after, i - 1);
    }
  }

  // Where both runs answer as the ledger does, they answer alike
  lemma UnseenThroughLedger(l: Limits, before: seq<Event>, t: int, tick: int, after: seq<Event>)
    requires Transparent(l, before + after) && Transparent(l, WithSweep(before, t, tick, after))
    ensures SweepUnseen(l, before, t, tick, after)
  {
    hide EntryAt, LedgerAt, Locked, LedgerLocked, RetryAfter, LedgerRetry;
    forall i: nat | i < |after| && after[i].Allow?
      ensures var e := EntryAt(l, before + after, |before| + i);
        var f := EntryAt(l, WithSweep(before, t, tick, after), |before| + 1 + i);
        Locked(e, after[i].t) == Locked(f, after[i].t) && RetryAfter(e, after[i].t) == RetryAfter(f, after[i].t)
    {
      assert (before + after)[|before| + i] == after[i];
      assert WithSweep(before, t, tick, after)[|before| + 1 + i] == after[i];
      LedgerIgnoresSweep(l, before, t, tick, after, i);
    }
  }

  // Both runs are possible, and their callers are orderly
  ghost predicate BothOrderly(l: Limits, before: seq<Event>, t: int, tick: int, after: seq<Event>) {
    && WellTimed(before + after) && Orderly(l, before + after)
    && WellTimed(WithSweep(before, t, tick, after)) && Orderly(l, WithSweep(before, t, tick, after))
  }

  lemma StragglerWithSweep(m: nat, late: int)
    ensures |Straggler(m, late, false)| == 4 * m + 1
    ensures Straggler(m, late, true) ==
            WithSweep(Straggler(m, late, false)[..2 * m + 1], late, late, Straggler(m, late, false)[2 * m + 1..])
  {
  }

  /** For all other limits there are two runs that differ in one sweep only, and in the answer to the last caller. */
  lemma StragglerSeesTheSweep(l: Limits) returns (before: seq<Event>, t: int, after: seq<Event>)
    requires !Degenerate(l)
    ensures BothOrderly(l, before, t, t, after) && !SweepUnseen(l, before, t, t, after)
  {
    hide EntryAt, Orderly, WellTimed, Straggler, LedgerLocked;
    var m, unswept := l.maxAttempts, Straggler(l.maxAttempts, Late(l), false);
    StragglerWithSweep(m, Late(l));
    t, before, after := Late(l), unswept[..2 * m + 1], unswept[2 * m + 1..];
    assert before + after == unswept;
    StragglerIsOrderly(l, t, false);
    StragglerIsOrderly(l, t, true);
    LastCaller(l, t, false);
    LastCaller(l, t, true);
    assert after[2 * m - 1].Allow? && after[2 * m - 1].t == t;
  }

  /** A sweep changes no answer in any run with orderly callers if and only if a single failure locks, or the window or
      the lockout is empty. */
  lemma SweepShowsExactly(l: Limits)
    ensures Degenerate(l) <==> forall before, t, tick, after :: BothOrderly(l, before, t, tick, after) ==>
              SweepUnseen(l, before, t, tick, after)
  {
    hide Transparent, WellTimed, Orderly, SweepUnseen;
    if Degenerate(l) {
      forall before, t, tick, after | BothOrderly(l, before, t, tick, after)
        ensures SweepUnseen(l, before, t, tick, after)
      {
        DegenerateLimitsAreTransparent(l, before + after);
        DegenerateLimitsAreTransparent(l, WithSweep(before, t, tick, after));
        UnseenThroughLedger(l, before, t, tick, after);
      }
    } else {
      var before, t, after := StragglerSeesTheSweep(l);
    }
  }
}
