/** What every interleaving of session handlers, logouts and sweeps guarantees. */
module SessionTheorems {
  import opened Entities
  import opened Sessions
  import opened SessionFlow

  // Checked when the configuration is loaded
  predicate Sane(life: Lifetime) {
    life.absolute > 0 ==> life.absolute >= life.ttl
  }

  ghost predicate IsRun(life: Lifetime, s: State, actions: seq<Action>)
    decreases |actions|
  {
    actions == [] || (Enabled(s, actions[0]) && IsRun(life, Step(life, s, actions[0]), actions[1..]))
  }

  ghost function After(life: Lifetime, s: State, actions: seq<Action>): State
    requires IsRun(life, s, actions)
    decreases |actions|
  {
    if actions == [] then s else After(life, Step(life, s, actions[0]), actions[1..])
  }

  ghost predicate Reachable(life: Lifetime, s: State) {
    exists first: State, actions: seq<Action> :: Init(first) && IsRun(life, first, actions) &&
      After(life, first, actions) == s
  }

  lemma {:induction false} RunInv(life: Lifetime, s: State, actions: seq<Action>)
    requires Sane(life) && Inv(s) && IsRun(life, s, actions)
    ensures Inv(After(life, s, actions))
    decreases |actions|
  {
    hide Inv, Step;
    if actions != [] {
      StepInv(life, s, actions[0]);
      RunInv(life, Step(life, s, actions[0]), actions[1..]);
    }
  }

  lemma ReachableInv(life: Lifetime, s: State)
    requires Sane(life) && Reachable(life, s)
    ensures Inv(s)
  {
    hide Inv, Init, Step;
    var first: State, actions: seq<Action> :| Init(first) && IsRun(life, first, actions) &&
      After(life, first, actions) == s;
    InitInv(first);
    RunInv(life, first, actions);
  }

  // What is on record about a session stays on record
  predicate Recorded(s: State, sid: string, o: Session, token: string) {
    && sid in s.origin && s.origin[sid] == o
    && (token != "" ==> sid in s.csrf && s.csrf[sid] == token)
  }

  lemma StepKeepsRecord(life: Lifetime, s: State, a: Action, sid: string, o: Session, token: string)
    requires Enabled(s, a) && Inv(s) && Recorded(s, sid, o, token)
    ensures Recorded(Step(life, s, a), sid, o, token)
  {
    hide ProcsOk, HonoursOk, Base64Url, Lapsed, StillLong, NewExpiry;
    if a.Backfill? && s.procs[a.h].sid in s.sessions {
      Stored(s.sessions, s.origin, s.csrf, s.procs[a.h].sid);
    }
  }

  lemma {:induction false} RunKeepsRecord(life: Lifetime, s: State, actions: seq<Action>, sid: string, o: Session,
                                          token: string)
    requires Sane(life) && Inv(s) && IsRun(life, s, actions) && Recorded(s, sid, o, token)
    ensures Recorded(After(life, s, actions), sid, o, token)
    decreases |actions|
  {
    hide Inv, Step, Recorded;
    if actions != [] {
      StepInv(life, s, actions[0]);
      StepKeepsRecord(life, s, actions[0], sid, o, token);
      RunKeepsRecord(life, Step(life, s, actions[0]), actions[1..], sid, o, token);
    }
  }

  /** A session found under an id at two moments of a run belongs to the same login: same user, authentication
      time, methods and ceiling, and the CSRF token, once there is one, is still the same. */
  lemma SessionNeverChanges(life: Lifetime, s: State, actions: seq<Action>, sid: string)
    requires Sane(life) && Reachable(life, s) && IsRun(life, s, actions)
    requires sid in s.sessions && sid in After(life, s, actions).sessions
    ensures SameLogin(After(life, s, actions).sessions[sid], s.sessions[sid])
    ensures s.sessions[sid].csrfToken != "" ==>
        After(life, s, actions).sessions[sid].csrfToken == s.sessions[sid].csrfToken
  {
    hide Reachable, Step, ProcsOk, HonoursOk, TokensOk, WithinCeiling;
    ReachableInv(life, s);
    RunInv(life, s, actions);
    assert Current(s.origin, s.csrf, sid, s.sessions[sid]);
    RunKeepsRecord(life, s, actions, sid, s.origin[sid], s.sessions[sid].csrfToken);
    var t := After(life, s, actions);
    assert Current(t.origin, t.csrf, sid, t.sessions[sid]);
  }

  /** No session outlives its ceiling: not in the store's expiry times, and not in what handlers accept. */
  lemma CeilingIsAbsolute(life: Lifetime, s: State)
    requires Sane(life) && Reachable(life, s)
    ensures forall sid :: sid in s.sessions ==> WithinCeiling(s.sessions[sid])
    ensures forall i :: 0 <= i < |s.honoured| ==> BeforeCeiling(s.honoured[i].s, s.honoured[i].at)
  {
    hide Reachable, ProcsOk, TokensOk;
    ReachableInv(life, s);
    forall sid | sid in s.sessions
      ensures WithinCeiling(s.sessions[sid])
    {
      assert Current(s.origin, s.csrf, sid, s.sessions[sid]);
    }
    forall i | 0 <= i < |s.honoured|
      ensures BeforeCeiling(s.honoured[i].s, s.honoured[i].at)
    {
      assert HonourOk(s.origin, s.csrf, s.honoured[i]);
    }
  }

  /** A sweep looks at sliding expiry only, and still leaves no session past its ceiling. */
  lemma SweepClearsCeilings(life: Lifetime, s: State, sid: string)
    requires Sane(life) && Reachable(life, s) && sid in Step(life, s, Action.Sweep(s.now)).sessions
    ensures BeforeCeiling(Step(life, s, Action.Sweep(s.now)).sessions[sid], s.now)
  {
    hide Reachable;
    CeilingIsAbsolute(life, s);
  }

  // ---- When a deleted session can come back ----

  // This request in flight may still write the session
  predicate Revives(life: Lifetime, p: Proc, sid: string, now: int) {
    match p
    case Creating(id, _) => id == sid
    case Extending(id, _) => id == sid
    case Stamping(id, _) => id == sid
    case Confirming(id, _) => id == sid
    case Judging(id, s, why) => id == sid && why.ToExtend? && life.ttl > 0 && s.csrfToken != "" && !Lapsed(s, now)
    case _ => false
  }

  ghost predicate Gone(life: Lifetime, s: State, sid: string) {
    && sid in s.origin && sid !in s.sessions
    && forall h :: h in s.procs ==> !Revives(life, s.procs[h], sid, s.now)
  }

  lemma JudgeStaysGone(life: Lifetime, s: State, a: Action, sid: string)
    requires (a.Judge? || a.Backfill?) && Enabled(s, a) && Gone(life, s, sid)
    ensures Gone(life, Step(life, s, a), sid)
  {
    hide NewExpiry, WithCSRF, Base64Url, Opened;
    assert !Revives(life, s.procs[a.h], sid, s.now);
  }

  lemma StepStaysGone(life: Lifetime, s: State, a: Action, sid: string)
    requires Enabled(s, a) && Gone(life, s, sid)
    ensures Gone(life, Step(life, s, a), sid)
  {
    if a.Judge? || a.Backfill? {
      JudgeStaysGone(life, s, a, sid);
    } else {
      hide Proceed, Opened, Base64Url;
      if a.Store? || a.Extend? || a.Reload? || a.Stamp? || a.Confirm? {
        assert !Revives(life, s.procs[a.h], sid, s.now);
      }
    }
  }

  lemma {:induction false} RunStaysGone(life: Lifetime, s: State, actions: seq<Action>, sid: string)
    requires IsRun(life, s, actions) && Gone(life, s, sid)
    ensures Gone(life, After(life, s, actions), sid)
    decreases |actions|
  {
    hide Gone, Step;
    if actions != [] {
      StepStaysGone(life, s, actions[0], sid);
      RunStaysGone(life, Step(life, s, actions[0]), actions[1..], sid);
    }
  }

  lemma OneStep(life: Lifetime, s: State, a: Action)
    requires Enabled(s, a)
    ensures IsRun(life, s, [a]) && After(life, s, [a]) == Step(life, s, a)
  {
    hide Step;
    assert [a][1..] == [];
  }

  lemma OneMoreStep(life: Lifetime, s: State, a: Action, rest: seq<Action>)
    requires Enabled(s, a) && IsRun(life, Step(life, s, a), rest)
    ensures IsRun(life, s, [a] + rest) && After(life, s, [a] + rest) == After(life, Step(life, s, a), rest)
  {
    hide Step;
    assert ([a] + rest)[1..] == rest;
  }

  // Wait until the session is due for an extension, judge it, and write it back
  lemma LateExtension(life: Lifetime, s: State, h: nat, sid: string) returns (actions: seq<Action>)
    requires Inv(s) && h in s.procs && s.procs[h].Judging? && Revives(life, s.procs[h], sid, s.now)
    ensures IsRun(life, s, actions) && sid in After(life, s, actions).sessions
  {
    var p := s.procs[h];
    assert ProcOk(s.origin, s.csrf, p);
    var due := p.s.expiresAt - life.ttl / 2;
    var tick := Action.Tick(if due > s.now then due else s.now);
    var s1 := Step(life, s, tick);
    var s2 := Step(life, s1, Action.Judge(h));
    assert !Lapsed(p.s, s1.now) && !StillLong(life, p.s, s1.now);
    assert s2.procs[h].Extending? && s2.procs[h].sid == sid;
    OneStep(life, s2, Action.Extend(h));
    OneMoreStep(life, s1, Action.Judge(h), [Action.Extend(h)]);
    OneMoreStep(life, s, tick, [Action.Judge(h)] + [Action.Extend(h)]);
    actions := [tick] + ([Action.Judge(h)] + [Action.Extend(h)]);
  }

  lemma Revival(life: Lifetime, s: State, h: nat, sid: string) returns (actions: seq<Action>)
    requires Inv(s) && h in s.procs && Revives(life, s.procs[h], sid, s.now)
    ensures IsRun(life, s, actions) && sid in After(life, s, actions).sessions
  {
    hide Inv;
    var p := s.procs[h];
    if p.Judging? {
      actions := LateExtension(life, s, h, sid);
    } else if p.Stamping? {
      OneStep(life, Step(life, s, Action.Stamp(h)), Action.Confirm(h));
      OneMoreStep(life, s, Action.Stamp(h), [Action.Confirm(h)]);
      actions := [Action.Stamp(h)] + [Action.Confirm(h)];
    } else {
      var a := if p.Creating? then Action.Store(h) else if p.Extending? then Action.Extend(h) else Action.Confirm(h);
      OneStep(life, s, a);
      actions := [a];
    }
  }

  /** A session that is no longer stored stays away in every continuation exactly when no request in flight
      may still write it back; in particular when handlers run one at a time. */
  lemma DeletedStaysDeletedExactly(life: Lifetime, s: State, sid: string)
    requires Sane(life) && Reachable(life, s) && sid in s.origin && sid !in s.sessions
    ensures (forall h :: h in s.procs ==> !Revives(life, s.procs[h], sid, s.now)) <==>
            (forall actions :: IsRun(life, s, actions) ==> sid !in After(life, s, actions).sessions)
  {
    hide Reachable, Revives, Inv;
    ReachableInv(life, s);
    if h :| h in s.procs && Revives(life, s.procs[h], sid, s.now) {
      var actions := Revival(life, s, h, sid);
    } else {
      forall actions | IsRun(life, s, actions)
        ensures sid !in After(life, s, actions).sessions
      {
        RunStaysGone(life, s, actions, sid);
      }
    }
  }
}
