/** The login rate limiter (ratelimit.go): a sliding window of failures, a lockout, lazy clearing and a sweep. */
module RateLimiter {
  import opened Entities

  datatype Limits = Limits(window: int, maxAttempts: int, lockout: int)

  datatype Entry = Entry(failures: seq<int>, lockedUntil: Option<int>)

  // ---- What each operation does to the entry of its key ----

  predicate Locked(e: Option<Entry>, now: int) {
    e.Some? && e.value.lockedUntil.Some? && now < e.value.lockedUntil.value
  }

  function RetryAfter(e: Option<Entry>, now: int): int {
    if Locked(e, now) then e.value.lockedUntil.value - now else 0
  }

  // allow clears an entry whose lock has run out
  function AfterAllow(e: Option<Entry>, now: int): Option<Entry> {
    if e.Some? && e.value.lockedUntil.Some? && !Locked(e, now) then Some(Entry([], None)) else e
  }

  function Recent(failures: seq<int>, cutoff: int): seq<int> {
    if failures == [] then []
    else
      var last := failures[|failures| - 1];
      Recent(failures[..|failures| - 1], cutoff) + if last > cutoff then [last] else []
  }

  function Failures(e: Option<Entry>): seq<int> {
    if e.Some? then e.value.failures else []
  }

  function LockOf(e: Option<Entry>): Option<int> {
    if e.Some? then e.value.lockedUntil else None
  }

  function AfterFailure(l: Limits, e: Option<Entry>, now: int): Entry {
    var failures := Recent(Failures(e), now - l.window) + [now];
    Entry(failures, if |failures| >= l.maxAttempts then Some(now + l.lockout) else LockOf(e))
  }

  predicate Idle(l: Limits, e: Entry, now: int) {
    !Locked(Some(e), now) && forall i :: 0 <= i < |e.failures| ==> !(e.failures[i] > now - l.window)
  }

  function AfterSweep(l: Limits, e: Option<Entry>, now: int): Option<Entry> {
    if e.Some? && Idle(l, e.value, now) then None else e
  }

  function Lookup(entries: map<string, Entry>, key: string): Option<Entry> {
    if key in entries then Some(entries[key]) else None
  }

  /** The limiter; every method runs under its mutex, so each is one atomic step. */
  class LoginRateLimiter {
    const limits: Limits
    var entries: map<string, Entry>

    constructor (limits: Limits)
      ensures this.limits == limits && entries == map[]
    {
      this.limits := limits;
      entries := map[];
    }

    method Allow(key: string, now: int) returns (ok: bool, retry: int)
      modifies this
      ensures key == "" ==> ok && retry == 0 && entries == old(entries)
      ensures key != "" ==>
                && ok == !Locked(old(Lookup(entries, key)), now) && retry == RetryAfter(old(Lookup(entries, key)), now)
                && Lookup(entries, key) == AfterAllow(old(Lookup(entries, key)), now)
      ensures forall k :: k != key ==> Lookup(entries, k) == old(Lookup(entries, k))
    {
      if key == "" || key !in entries {
        return true, 0;
      }
      var entry := entries[key];
      if entry.lockedUntil.Some? && now < entry.lockedUntil.value {
        return false, entry.lockedUntil.value - now;
      }
      if entry.lockedUntil.Some? && !(now < entry.lockedUntil.value) {
        entries := entries[key := Entry([], None)];
      }
      return true, 0;
    }

    method RecordFailure(key: string, now: int)
      modifies this
      ensures key == "" ==> entries == old(entries)
      ensures key != "" ==> entries == old(entries)[key := AfterFailure(limits, old(Lookup(entries, key)), now)]
    {
      if key == "" {
        return;
      }
      var entry := if key in entries then entries[key] else Entry([], None);
      var cutoff := now - limits.window;
      var kept: seq<int> := [];
      for i := 0 to |entry.failures|
        invariant kept == Recent(entry.failures[..i], cutoff)
      {
        assert entry.failures[..i + 1][..i] == entry.failures[..i];
        if entry.failures[i] > cutoff {
          kept := kept + [entry.failures[i]];
        }
      }
      assert entry.failures[..|entry.failures|] == entry.failures;
      kept := kept + [now];
      entry := entry.(failures := kept);
      if |kept| >= limits.maxAttempts {
        entry := entry.(lockedUntil := Some(now + limits.lockout));
      }
      entries := entries[key := entry];
    }

    /** allowAndRecord: two critical sections, one after the other */
    method AllowAndRecord(key: string, now: int, later: int) returns (ok: bool, retry: int)
      requires now <= later
      modifies this
      ensures key == "" ==> ok && retry == 0 && entries == old(entries)
      ensures key != "" ==>
                && ok == !Locked(old(Lookup(entries, key)), now) && retry == RetryAfter(old(Lookup(entries, key)), now)
                && Lookup(entries, key) ==
                   if ok then Some(AfterFailure(limits, AfterAllow(old(Lookup(entries, key)), now), later))
                   else old(Lookup(entries, key))
      ensures forall k :: k != key ==> Lookup(entries, k) == old(Lookup(entries, k))
    {
      if key == "" {
        return true, 0;
      }
      ok, retry := Allow(key, now);
      if ok {
        RecordFailure(key, later);
      }
    }

    method RecordSuccess(key: string)
      modifies this
      ensures entries == if key == "" then old(entries) else old(entries) - {key}
    {
      if key != "" {
        entries := entries - {key};
      }
    }

    method Sweep(now: int)
      modifies this
      ensures forall k :: Lookup(entries, k) == AfterSweep(limits, old(Lookup(entries, k)), now)
    {
      var cutoff := now - limits.window;
      var todo := entries.Keys;
      while todo != {}
        invariant todo <= old(entries.Keys)
        invariant forall k :: Lookup(entries, k) ==
                    if k in todo then old(Lookup(entries, k)) else AfterSweep(limits, old(Lookup(entries, k)), now)
        decreases todo
      {
        var key :| key in todo;
        todo := todo - {key};
        assert Lookup(entries, key) == old(Lookup(entries, key));
        var entry := entries[key];
        if !(entry.lockedUntil.Some? && now < entry.lockedUntil.value) {
          var hasRecent := false;
          for i := 0 to |entry.failures|
            invariant hasRecent <==> exists j :: 0 <= j < i && entry.failures[j] > cutoff
          {
            if entry.failures[i] > cutoff {
              hasRecent := true;
              break;
            }
          }
          if !hasRecent {
            entries := entries - {key};
          }
        }
      }
    }
  }

  // ---- Runs on one key ----

  // t is the clock; a sweep may carry an earlier tick
  datatype Event = Allow(id: nat, t: int) | Record(id: nat, t: int) | Success(t: int) | Sweep(t: int, tick: int)

  function Apply(l: Limits, e: Option<Entry>, ev: Event): Option<Entry> {
    match ev
    case Allow(_, t) => AfterAllow(e, t)
    case Record(_, t) => Some(AfterFailure(l, e, t))
    case Success(_) => None
    case Sweep(_, tick) => AfterSweep(l, e, tick)
  }

  function EntryAt(l: Limits, trace: seq<Event>, i: nat): Option<Entry>
    requires i <= |trace|
  {
    if i == 0 then None else Apply(l, EntryAt(l, trace, i - 1), trace[i - 1])
  }

  ghost predicate WellTimed(trace: seq<Event>) {
    && (forall i, j :: 0 <= i < j < |trace| ==> trace[i].t <= trace[j].t)
    && (forall i :: 0 <= i < |trace| && trace[i].Sweep? ==> trace[i].tick <= trace[i].t)
  }

  predicate Admitted(l: Limits, trace: seq<Event>, i: nat) {
    i < |trace| && trace[i].Allow? && !Locked(EntryAt(l, trace, i), trace[i].t)
  }
}
