/** Session handlers on their own are runs of the concurrent session protocol. */
module SoloSession {
  import opened Entities
  import opened Sessions
  import opened SessionFlow
  import opened SessionTheorems

  ghost predicate Leads(life: Lifetime, s: State, actions: seq<Action>, t: State) {
    IsRun(life, s, actions) && After(life, s, actions) == t
  }

  lemma {:induction false} Advance(life: Lifetime, s: State, actions: seq<Action>, t: State, a: Action)
    requires Leads(life, s, actions, t) && Enabled(t, a)
    ensures Leads(life, s, actions + [a], Step(life, t, a))
    decreases |actions|
  {
    hide Step;
    if actions == [] {
      assert actions + [a] == [a];
      OneStep(life, s, a);
    } else {
      assert (actions + [a])[1..] == actions[1..] + [a];
      Advance(life, Step(life, s, actions[0]), actions[1..], t, a);
    }
  }

  lemma Nowhere(life: Lifetime, s: State)
    ensures Leads(life, s, [], s)
  {
  }

  lemma Regoto(s: State, h: nat, p: Proc, q: Proc)
    requires h !in s.procs
    ensures Goto(Goto(s, h, p), h, q) == Goto(s, h, q) && Done(Goto(s, h, p), h) == s && Done(s, h) == s
  {
    assert s.procs[h := p][h := q] == s.procs[h := q] && s.procs[h := p] - {h} == s.procs && s.procs - {h} == s.procs;
  }

  // Moving on does not depend on what the request was doing before
  lemma ProceedFrom(life: Lifetime, s: State, h: nat, p: Proc, sid: string, session: Session, why: Purpose, now: int)
    requires h !in s.procs
    ensures Proceed(life, Goto(s, h, p), h, sid, session, why, now) == Proceed(life, s, h, sid, session, why, now)
  {
    hide NewExpiry, StillLong;
    Regoto(s, h, p, Reloading(sid));
    Regoto(s, h, p, Extending(sid, session.(expiresAt := NewExpiry(life, session, now))));
  }

  lemma Judged(life: Lifetime, s: State, h: nat, sid: string, why: Purpose) returns (actions: seq<Action>, t: State)
    requires h !in s.procs && sid != "" && sid in s.sessions
    ensures Leads(life, s, actions, t)
    ensures var x := s.sessions[sid];
      t == if Lapsed(x, s.now) then Goto(s, h, Expiring(sid))
           else if x.csrfToken == "" then Goto(s, h, Backfilling(sid, why, s.now))
           else Proceed(life, s, h, sid, x, why, s.now)
  {
    hide Leads, Proceed, Lapsed;
    var x := s.sessions[sid];
    var p := Judging(sid, x, why);
    Nowhere(life, s);
    Advance(life, s, [], s, Action.Load(h, sid, why));
    Advance(life, s, [] + [Action.Load(h, sid, why)], Goto(s, h, p), Action.Judge(h));
    Regoto(s, h, p, Expiring(sid));
    Regoto(s, h, p, Backfilling(sid, why, s.now));
    ProceedFrom(life, s, h, p, sid, x, why, s.now);
    actions, t := [] + [Action.Load(h, sid, why)] + [Action.Judge(h)], Step(life, Goto(s, h, p), Action.Judge(h));
  }

  // The same state, up to which CSRF tokens are on record
  ghost predicate UpToTokens(t: State, u: State) {
    t.(csrf := u.csrf) == u
  }

  /** Up to the verdict, validSession and maybeExtendSession are a load, a clock reading and a deletion or backfill. */
  lemma Examined(life: Lifetime, s: State, h: nat, sid: string, csrf: string, why: Purpose)
    returns (actions: seq<Action>, t: State)
    requires h !in s.procs && Base64Url(csrf)
    ensures Leads(life, s, actions, t)
    ensures var v := Validated(s.sessions, sid, csrf, s.now);
      UpToTokens(t, if v.found.None? then s.(sessions := v.sessions)
                    else Proceed(life, s.(sessions := v.sessions), h, sid, v.found.value, why, s.now))
  {
    hide Leads, Proceed, Lapsed;
    if sid == "" || sid !in s.sessions {
      actions, t := [], s;
      Nowhere(life, s);
    } else {
      actions, t := Judged(life, s, h, sid, why);
      if Lapsed(s.sessions[sid], s.now) {
        Advance(life, s, actions, t, Action.Expire(h));
        Regoto(s, h, Expiring(sid), Expiring(sid));
        actions, t := actions + [Action.Expire(h)], Step(life, t, Action.Expire(h));
      } else if s.sessions[sid].csrfToken == "" {
        actions, t := Filled(life, s, actions, h, sid, csrf, why);
      }
    }
  }

  lemma Filled(life: Lifetime, s: State, sofar: seq<Action>, h: nat, sid: string, csrf: string, why: Purpose)
    returns (actions: seq<Action>, t: State)
    requires h !in s.procs && Base64Url(csrf) && sid in s.sessions
    requires Leads(life, s, sofar, Goto(s, h, Backfilling(sid, why, s.now)))
    ensures Leads(life, s, actions, t)
    ensures var session := WithCSRF(s.sessions[sid], csrf);
      UpToTokens(t, Proceed(life, s.(sessions := s.sessions[sid := session]), h, sid, session, why, s.now))
  {
    hide Leads, Base64Url, NewExpiry, StillLong;
    var session := WithCSRF(s.sessions[sid], csrf);
    var p := Backfilling(sid, why, s.now);
    Advance(life, s, sofar, Goto(s, h, p), Action.Backfill(h, csrf));
    ProceedFrom(life, s, h, p, sid, session, why, s.now);
    actions, t := sofar + [Action.Backfill(h, csrf)], Step(life, Goto(s, h, p), Action.Backfill(h, csrf));
  }

  // What a handler leaves: the bucket, nobody in flight, and the session it was given
  ghost predicate Matches(s: State, sid: string, sessions: Bucket, given: Option<Session>, t: State) {
    && t.sessions == sessions && t.procs == s.procs && t.now == s.now
    && t.honoured == s.honoured + if given.Some? then [Honour(sid, given.value, s.now)] else []
  }

  /** validSession on its own is a run of the protocol. */
  lemma ValidateAlone(life: Lifetime, s: State, h: nat, sid: string, csrf: string)
    returns (actions: seq<Action>, t: State)
    requires h !in s.procs && Base64Url(csrf)
    ensures Leads(life, s, actions, t)
    ensures var v := Validated(s.sessions, sid, csrf, s.now); Matches(s, sid, v.sessions, v.found, t)
  {
    hide Leads, Validated, Base64Url;
    actions, t := Examined(life, s, h, sid, csrf, ToValidate);
    assert s.procs - {h} == s.procs;
  }

  /** maybeExtendSession on its own is a run of the protocol, which is given the session as it was before it is
      extended. */
  lemma ExtendAlone(life: Lifetime, s: State, h: nat, sid: string, csrf: string)
    returns (actions: seq<Action>, t: State)
    requires h !in s.procs && Base64Url(csrf)
    ensures Leads(life, s, actions, t)
    ensures Matches(s, sid, Touched(life, s.sessions, sid, csrf, s.now).sessions,
                    Validated(s.sessions, sid, csrf, s.now).found, t)
  {
    hide Leads, Validated, Base64Url, NewExpiry, StillLong;
    var v := Validated(s.sessions, sid, csrf, s.now);
    actions, t := Examined(life, s, h, sid, csrf, ToExtend);
    assert s.procs - {h} == s.procs;
    if v.found.Some? && !StillLong(life, v.found.value, s.now) {
      Advance(life, s, actions, t, Action.Extend(h));
      actions := actions + [Action.Extend(h)];
      assert t.procs - {h} == s.procs;
      t := Step(life, t, Action.Extend(h));
    }
  }

  /** handleReAuth with a good password, on its own, is a run of the protocol. */
  lemma ReAuthAlone(life: Lifetime, s: State, h: nat, sid: string, csrf: string)
    returns (actions: seq<Action>, t: State)
    requires h !in s.procs && Base64Url(csrf)
    ensures Leads(life, s, actions, t)
    ensures var v := Validated(s.sessions, sid, csrf, s.now);
      Matches(s, sid, if v.found.Some? then ReAuthenticated(v.sessions, sid, s.now) else v.sessions, v.found, t)
  {
    hide Leads, Base64Url, Lapsed;
    var v := Validated(s.sessions, sid, csrf, s.now);
    actions, t := Examined(life, s, h, sid, csrf, ToReAuth);
    if v.found.Some? {
      actions, t := Stamped(life, s, actions, t, h, sid);
    }
  }

  lemma Stamped(life: Lifetime, s: State, sofar: seq<Action>, u: State, h: nat, sid: string)
    returns (actions: seq<Action>, t: State)
    requires h !in s.procs && Leads(life, s, sofar, u) && u.procs == s.procs[h := Reloading(sid)] && sid in u.sessions
    ensures Leads(life, s, actions, t)
    ensures t == u.(sessions := u.sessions[sid := u.sessions[sid].(reAuthAt := Some(u.now))], procs := s.procs)
  {
    hide Leads, Proceed;
    var b := u.(procs := s.procs);
    assert u == Goto(b, h, Reloading(sid));
    var x := u.sessions[sid];
    var y := x.(reAuthAt := Some(u.now));
    Advance(life, s, sofar, u, Action.Reload(h));
    Regoto(b, h, Reloading(sid), Stamping(sid, x));
    actions := sofar + [Action.Reload(h)];
    Advance(life, s, actions, Goto(b, h, Stamping(sid, x)), Action.Stamp(h));
    Regoto(b, h, Stamping(sid, x), Confirming(sid, y));
    actions := actions + [Action.Stamp(h)];
    Advance(life, s, actions, Goto(b, h, Confirming(sid, y)), Action.Confirm(h));
    Regoto(b, h, Confirming(sid, y), Confirming(sid, y));
    actions, t := actions + [Action.Confirm(h)], Step(life, Goto(b, h, Confirming(sid, y)), Action.Confirm(h));
  }
}
