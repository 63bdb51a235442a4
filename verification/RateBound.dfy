/** How many attempts the limiter lets through. */
module RateBound {
  import opened Entities
  import opened RateLimiter

  // The failures no older than a
  function CountSince(failures: seq<int>, a: int): nat {
    if failures == [] then 0
    else CountSince(failures[..|failures| - 1], a) + if failures[|failures| - 1] >= a then 1 else 0
  }

  lemma {:induction false} CountOfRecent(failures: seq<int>, cutoff: int, a: int)
    requires cutoff < a
    ensures CountSince(Recent(failures, cutoff), a) == CountSince(failures, a) <= |Recent(failures, cutoff)|
    ensures (forall i :: 0 <= i < |failures| ==> !(failures[i] > cutoff)) ==> CountSince(failures, a) == 0
  {
    if failures != [] {
      var front, last := failures[..|failures| - 1], failures[|failures| - 1];
      CountOfRecent(front, cutoff, a);
      if last > cutoff {
        assert (Recent(front, cutoff) + [last])[..|Recent(front, cutoff)|] == Recent(front, cutoff);
      } else {
        assert Recent(front, cutoff) + [] == Recent(front, cutoff);
      }
    }
  }

  lemma CountAppend(failures: seq<int>, t: int, a: int)
    ensures CountSince(failures + [t], a) == CountSince(failures, a) + if t >= a then 1 else 0
  {
    assert (failures + [t])[..|failures|] == failures;
  }

  // The failures recorded strictly between two events
  ghost function RecordsBetween(trace: seq<Event>, p: nat, q: nat): set<nat>
    requires q <= |trace|
  {
    set r | p < r < q && trace[r].Record?
  }

  lemma RecordsUpTo(trace: seq<Event>, p: nat, q: nat)
    requires p < q <= |trace|
    ensures |RecordsBetween(trace, p, q)| ==
            if q == p + 1 then 0 else |RecordsBetween(trace, p, q - 1)| + if trace[q - 1].Record? then 1 else 0
  {
    if q == p + 1 {
      assert RecordsBetween(trace, p, q) == {};
    } else {
      assert RecordsBetween(trace, p, q) ==
             RecordsBetween(trace, p, q - 1) + if trace[q - 1].Record? then {q - 1} else {};
    }
  }

  // While the interval from a lasts: nothing recorded since the first admission is forgotten, and a lock holds
  ghost predicate Remembers(l: Limits, e: Option<Entry>, a: int, records: nat) {
    && (LockOf(e).Some? ==> LockOf(e).value >= a + l.lockout)
    && CountSince(Failures(e), a) >= records
    && (records >= l.maxAttempts ==> LockOf(e).Some?)
  }

  lemma RemembersStep(l: Limits, e: Option<Entry>, ev: Event, a: int, records: nat)
    requires Remembers(l, e, a, records) && !ev.Success?
    requires a <= ev.t < a + l.window && ev.t < a + l.lockout && (ev.Sweep? ==> ev.tick <= ev.t)
    ensures Remembers(l, Apply(l, e, ev), a, if ev.Record? then records + 1 else records)
  {
    hide Recent, CountSince;
    match ev
    case Record(_, t) =>
      CountOfRecent(Failures(e), t - l.window, a);
      CountAppend(Recent(Failures(e), t - l.window), t, a);
    case Sweep(_, tick) => CountOfRecent(Failures(e), tick - l.window, a);
    case _ =>
  }

  lemma AdmittedRemembers(l: Limits, e: Option<Entry>, ev: Event, a: int)
    requires ev.Allow? && !Locked(e, ev.t)
    ensures 0 < l.maxAttempts ==> Remembers(l, Apply(l, e, ev), a, 0)
  {
  }

  lemma {:induction false} RemembersSince(l: Limits, trace: seq<Event>, p: nat, q: nat, a: int)
    requires l.maxAttempts >= 1 && WellTimed(trace) && Admitted(l, trace, p) && p < q < |trace|
    requires forall i :: 0 <= i < |trace| ==> !trace[i].Success?
    requires a <= trace[p].t && trace[q].t < a + l.window && trace[q].t < a + l.lockout
    ensures Remembers(l, EntryAt(l, trace, q), a, |RecordsBetween(trace, p, q)|)
    decreases q
  {
    hide Recent, CountSince, Remembers, Apply, Locked, RecordsBetween;
    RecordsUpTo(trace, p, q);
    if q == p + 1 {
      AdmittedRemembers(l, EntryAt(l, trace, p), trace[p], a);
    } else {
      RemembersSince(l, trace, p, q - 1, a);
      RemembersStep(l, EntryAt(l, trace, q - 1), trace[q - 1], a, |RecordsBetween(trace, p, q - 1)|);
    }
  }

  // ---- Counting attempts ----

  predicate RecordOf(trace: seq<Event>, i: nat, r: nat) {
    i < r < |trace| && trace[i].Allow? && trace[r].Record? && trace[r].id == trace[i].id
  }

  ghost predicate Records(trace: seq<Event>, i: nat, from: nat) {
    exists r: nat :: from <= r && RecordOf(trace, i, r)
  }

  ghost predicate OneCallPerId(trace: seq<Event>) {
    forall i, j :: 0 <= i < |trace| && 0 <= j < |trace| ==>
      trace[i].Allow? && trace[j].Allow? && trace[i].id == trace[j].id ==> i == j
  }

  // Admitted in [a, b) and recorded sooner or later
  ghost function Attempts(l: Limits, trace: seq<Event>, a: int, b: int): set<nat> {
    set i | 0 <= i < |trace| && Admitted(l, trace, i) && a <= trace[i].t < b && Records(trace, i, 0)
  }

  // Admitted by event j, yet to record
  ghost function InFlight(l: Limits, trace: seq<Event>, j: nat): set<nat> {
    set i | 0 <= i < |trace| && i <= j && Admitted(l, trace, i) && Records(trace, i, j + 1)
  }

  lemma {:induction false} InjectiveImage(m: map<nat, nat>, into: set<nat>)
    requires forall i :: i in m ==> m[i] in into
    requires forall i, j :: i in m && j in m && m[i] == m[j] ==> i == j
    ensures |m.Keys| <= |into|
    decreases |m.Keys|
  {
    if m.Keys != {} {
      var i :| i in m.Keys;
      var rest := m - {i};
      assert rest.Keys == m.Keys - {i};
      InjectiveImage(rest, into - {m[i]});
    }
  }

  lemma {:induction false} Extremes(s: set<nat>) returns (least: nat, greatest: nat)
    requires s != {}
    ensures least in s && greatest in s && forall i :: i in s ==> least <= i <= greatest
    decreases |s|
  {
    var i :| i in s;
    if s == {i} {
      return i, i;
    }
    assert s - {i} != {};
    least, greatest := Extremes(s - {i});
    least, greatest := if i < least then i else least, if i > greatest then i else greatest;
    forall k | k in s
      ensures least <= k <= greatest
    {
      assert k == i || k in s - {i};
    }
  }

  // Those of the attempts that recorded before event j did so after the first admission p
  lemma RecordedEarly(l: Limits, trace: seq<Event>, attempts: set<nat>, p: nat, j: nat)
    requires OneCallPerId(trace) && j < |trace| && trace[j].Allow?
    requires forall i :: i in attempts ==>
        p <= i < |trace| && trace[i].Allow? && exists r: nat :: r <= j && RecordOf(trace, i, r)
    ensures |attempts| <= |RecordsBetween(trace, p, j)|
  {
    var m := map i | i in attempts :: var r: nat :| r <= j && RecordOf(trace, i, r); r;
    assert m.Keys == attempts;
    forall i | i in m
      ensures m[i] in RecordsBetween(trace, p, j)
    {
      assert RecordOf(trace, i, m[i]) && m[i] <= j;
    }
    forall i, k | i in m && k in m && m[i] == m[k]
      ensures i == k
    {
      assert RecordOf(trace, i, m[i]) && RecordOf(trace, k, m[k]);
    }
    InjectiveImage(m, RecordsBetween(trace, p, j));
  }

  lemma RecordedByThen(trace: seq<Event>, i: nat, j: nat)
    requires Records(trace, i, 0) && !Records(trace, i, j + 1)
    ensures exists r: nat :: r <= j && RecordOf(trace, i, r)
  {
    var r: nat :| RecordOf(trace, i, r);
    assert r <= j;
  }

  /** Rate bound: on a key that is never reset by a success, with at most c callers at a time between being admitted
      and recording, any half-open interval of length min(window, lockout) admits at most maxAttempts + c - 1 attempts
      that go on to record, whatever was pruned, cleared or swept. */
  lemma RateIsBounded(l: Limits, trace: seq<Event>, c: nat, a: int)
    requires l.maxAttempts >= 1 && WellTimed(trace) && OneCallPerId(trace)
    requires forall i :: 0 <= i < |trace| ==> !trace[i].Success?
    requires forall j: nat :: j < |trace| ==> |InFlight(l, trace, j)| <= c
    ensures |Attempts(l, trace, a, a + if l.window <= l.lockout then l.window else l.lockout)| <= l.maxAttempts + c - 1
  {
    hide Apply, EntryAt, CountSince, Records;
    var b := a + if l.window <= l.lockout then l.window else l.lockout;
    var attempts := Attempts(l, trace, a, b);
    if attempts != {} {
      var p, j := Extremes(attempts);
      var open := attempts * InFlight(l, trace, j);
      var closed := attempts - InFlight(l, trace, j);
      assert attempts == open + closed && open !! closed;
      CardinalityOfSubset(open, InFlight(l, trace, j));
      forall i | i in closed
        ensures p <= i < |trace| && trace[i].Allow? && exists r: nat :: r <= j && RecordOf(trace, i, r)
      {
        RecordedByThen(trace, i, j);
      }
      RecordedEarly(l, trace, closed, p, j);
      if p < j {
        RemembersSince(l, trace, p, j, a);
      } else {
        assert RecordsBetween(trace, p, j) == {};
      }
    }
  }

  lemma {:induction false} CardinalityOfSubset(a: set<nat>, b: set<nat>)
    requires a <= b
    ensures |a| <= |b|
  {
    assert |b - a| + |a| == |b| by {
      assert b == a + (b - a);
    }
  }

  // ---- The bound is attained ----

  // m attempts one after the other, then c at once
  function Burst(m: nat, c: nat): seq<Event> {
    seq(2 * m + 2 * c, (i: int) =>
      if i < 0 then Success(0)
      else if i < 2 * m then if i % 2 == 0 then Allow(i / 2, 0) else Record(i / 2, 0)
      else if i < 2 * m + c then Allow(i - m, 0)
      else Record(i - m - c, 0))
  }

  // An admission leaves an unlocked entry alone; a failure below the limit adds itself and sets no lock
  lemma BurstStep(l: Limits, e: Option<Entry>, ev: Event, n: nat)
    requires LockOf(e).None? && |Failures(e)| <= n && (ev.Allow? || (ev.Record? && n + 1 < l.maxAttempts))
    ensures LockOf(Apply(l, e, ev)).None? && |Failures(Apply(l, e, ev))| <= if ev.Allow? then n else n + 1
  {
    hide Recent;
    RecentIsShorter(Failures(e), ev.t - l.window);
  }

  lemma {:induction false} BurstEntry(l: Limits, c: nat, i: nat)
    requires l.maxAttempts >= 1 && i < 2 * (l.maxAttempts - 1) + c
    ensures var e := EntryAt(l, Burst(l.maxAttempts - 1, c), i);
            LockOf(e).None? && |Failures(e)| <= if i < 2 * (l.maxAttempts - 1) then i / 2 else l.maxAttempts - 1
  {
    hide Apply, LockOf, Failures;
    var m := l.maxAttempts - 1;
    if i == 0 {
      NothingYet(l, Burst(m, c));
    } else {
      BurstEntry(l, c, i - 1);
      BurstStep(l, EntryAt(l, Burst(m, c), i - 1), Burst(m, c)[i - 1], if i - 1 < 2 * m then (i - 1) / 2 else m);
    }
  }

  lemma NothingYet(l: Limits, trace: seq<Event>)
    ensures LockOf(EntryAt(l, trace, 0)).None? && |Failures(EntryAt(l, trace, 0))| == 0
  {
  }

  lemma {:induction false} RecentIsShorter(failures: seq<int>, cutoff: int)
    ensures |Recent(failures, cutoff)| <= |failures|
  {
    if failures != [] {
      RecentIsShorter(failures[..|failures| - 1], cutoff);
    }
  }

  function Interval(lo: nat, hi: nat): set<nat> {
    if lo >= hi then {} else Interval(lo, hi - 1) + {hi - 1}
  }

  lemma {:induction false} IntervalSize(lo: nat, hi: nat)
    requires lo <= hi
    ensures |Interval(lo, hi)| == hi - lo && forall i :: i in Interval(lo, hi) <==> lo <= i < hi
    decreases hi
  {
    if lo < hi {
      IntervalSize(lo, hi - 1);
    }
  }

  lemma BurstInFlight(l: Limits, m: nat, c: nat, j: nat)
    requires c >= 1 && j < 2 * m + 2 * c
    ensures |InFlight(l, Burst(m, c), j)| <= c
  {
    var trace := Burst(m, c);
    forall i | i in InFlight(l, trace, j)
      ensures if j < 2 * m then i == j else 2 * m <= i < 2 * m + c
    {
      var r: nat :| j + 1 <= r && RecordOf(trace, i, r);
    }
    IntervalSize(2 * m, 2 * m + c);
    CardinalityOfSubset(InFlight(l, trace, j), if j < 2 * m then {j} else Interval(2 * m, 2 * m + c));
  }

  // Where the k-th attempt of the burst is admitted
  function BurstIndex(m: nat, k: nat): nat {
    if k < m then 2 * k else k + m
  }

  lemma BurstAttempt(l: Limits, c: nat, k: nat, b: int)
    requires l.maxAttempts >= 1 && b > 0 && k < l.maxAttempts - 1 + c
    ensures BurstIndex(l.maxAttempts - 1, k) in Attempts(l, Burst(l.maxAttempts - 1, c), 0, b)
  {
    hide EntryAt;
    var m := l.maxAttempts - 1;
    var i := BurstIndex(m, k);
    BurstEntry(l, c, i);
    assert RecordOf(Burst(m, c), i, if k < m then 2 * k + 1 else k + m + c);
  }

  lemma BurstAttempts(l: Limits, c: nat, b: int)
    requires l.maxAttempts >= 1 && b > 0
    ensures |Attempts(l, Burst(l.maxAttempts - 1, c), 0, b)| >= l.maxAttempts - 1 + c
  {
    hide Attempts, Burst, Interval;
    var m := l.maxAttempts - 1;
    var at := map k: nat | k in Interval(0, m + c) :: BurstIndex(m, k);
    IntervalSize(0, m + c);
    forall k | k in at
      ensures at[k] in Attempts(l, Burst(m, c), 0, b)
    {
      BurstAttempt(l, c, k, b);
    }
    assert at.Keys == Interval(0, m + c);
    InjectiveImage(at, Attempts(l, Burst(m, c), 0, b));
  }

  /** The rate bound is exact: for all limits and every c there is a run that meets it. */
  lemma RateBoundIsTight(l: Limits, c: nat) returns (trace: seq<Event>)
    requires l.maxAttempts >= 1 && l.window > 0 && l.lockout > 0 && c >= 1
    ensures WellTimed(trace) && OneCallPerId(trace) && forall i :: 0 <= i < |trace| ==> !trace[i].Success?
    ensures forall j: nat :: j < |trace| ==> |InFlight(l, trace, j)| <= c
    ensures |Attempts(l, trace, 0, if l.window <= l.lockout then l.window else l.lockout)| == l.maxAttempts + c - 1
  {
    hide Attempts, InFlight, EntryAt;
    trace := Burst(l.maxAttempts - 1, c);
    forall j: nat | j < |trace|
      ensures |InFlight(l, trace, j)| <= c
    {
      BurstInFlight(l, l.maxAttempts - 1, c, j);
    }
    BurstAttempts(l, c, if l.window <= l.lockout then l.window else l.lockout);
    RateIsBounded(l, trace, c, 0);
  }

  // ---- Which keys are never reset ----

  function LoginIPRateKey(ip: string): string {
    "ip:" + ip
  }

  // lowered: strings.ToLower of the username
  function LoginRateKey(ip: string, lowered: string): string {
    if lowered == "" then LoginIPRateKey(ip) else LoginIPRateKey(ip) + "/user:" + lowered
  }

  /** A successful login clears an IP-wide key exactly when it has no username, so the bound holds for those keys. */
  lemma SuccessSparesIPKeys(ip: string, lowered: string, other: string)
    requires '/' !in ip && '/' !in other
    ensures LoginRateKey(ip, lowered) == LoginIPRateKey(other) <==> lowered == "" && ip == other
  {
    var key := LoginRateKey(ip, lowered);
    if lowered != "" {
      assert key[3 + |ip|] == '/';
      assert |other| > |ip| ==> LoginIPRateKey(other)[3 + |ip|] == other[|ip|];
    } else if key == LoginIPRateKey(other) {
      assert ip == key[3..] == other;
    }
  }
}
