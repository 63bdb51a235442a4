/** Sessions under concurrency: every session transaction and clock reading of createSession, validSession,
    maybeExtendSession, handleReAuth and logout is a step, and the steps of different requests interleave. */
module SessionFlow {
  import opened Entities
  import opened Transactions
  import opened Sessions

  // Why a session is loaded
  datatype Purpose = ToValidate | ToExtend | ToReAuth

  // A request in flight, by the next thing it will do
  datatype Proc =
    | Creating(sid: string, s: Session)                                  // PutSession of a new session
    | Judging(sid: string, s: Session, why: Purpose)                     // read the clock
    | Expiring(sid: string)                                              // DeleteSession
    | Backfilling(sid: string, why: Purpose, now: int)                   // EnsureSessionCSRF
    | Extending(sid: string, s: Session)                                 // PutSession with the new expiry
    | Reloading(sid: string)                                             // GetSession of markSessionReAuth
    | Stamping(sid: string, s: Session)                                  // read the clock again
    | Confirming(sid: string, s: Session)                                // PutSession with the stamp

  // validSession or maybeExtendSession returned this session at this moment
  datatype Honour = Honour(sid: string, s: Session, at: int)

  datatype State = State(
    now: int,
    sessions: Bucket,
    procs: map<nat, Proc>,
    origin: map<string, Session>,  // every session as it was first made
    csrf: map<string, string>,     // the first CSRF token a session got
    honoured: seq<Honour>
  )

  datatype Action =
    | Tick(t: int)
    | Sweep(t: int)
    | Abort(h: nat)
    | Logout(sid: string)
    | Create(h: nat, userID: string, authenticated: bool, amr: seq<string>, sid: string, csrf: string)
    | Store(h: nat)
    | Load(h: nat, sid: string, why: Purpose)
    | Judge(h: nat)
    | Expire(h: nat)
    | Backfill(h: nat, csrf: string)
    | Extend(h: nat)
    | Reload(h: nat)
    | Stamp(h: nat)
    | Confirm(h: nat)

  predicate At(s: State, h: nat) {
    h in s.procs
  }

  predicate Enabled(s: State, a: Action) {
    match a
    case Tick(t) => t >= s.now
    case Sweep(t) => t <= s.now
    case Abort(h) => At(s, h)
    case Logout(_) => true
    case Create(h, _, _, _, sid, csrf) => !At(s, h) && Base64Url(sid) && sid !in s.origin && Base64Url(csrf)
    case Store(h) => At(s, h) && s.procs[h].Creating?
    case Load(h, sid, _) => !At(s, h)
    case Judge(h) => At(s, h) && s.procs[h].Judging?
    case Expire(h) => At(s, h) && s.procs[h].Expiring?
    case Backfill(h, csrf) => At(s, h) && s.procs[h].Backfilling? && Base64Url(csrf)
    case Extend(h) => At(s, h) && s.procs[h].Extending?
    case Reload(h) => At(s, h) && s.procs[h].Reloading?
    case Stamp(h) => At(s, h) && s.procs[h].Stamping?
    case Confirm(h) => At(s, h) && s.procs[h].Confirming?
  }

  function Goto(s: State, h: nat, p: Proc): State {
    s.(procs := s.procs[h := p])
  }

  function Done(s: State, h: nat): State {
    s.(procs := s.procs - {h})
  }

  // The session is good and has a CSRF token: go on with what it was loaded for
  function Proceed(life: Lifetime, s: State, h: nat, sid: string, session: Session, why: Purpose, now: int): State {
    var honoured := s.honoured + [Honour(sid, session, now)];
    match why
    case ToValidate => Done(s, h).(honoured := honoured)
    case ToReAuth => Goto(s, h, Reloading(sid)).(honoured := honoured)
    case ToExtend =>
      if StillLong(life, session, now) then Done(s, h).(honoured := honoured)
      else Goto(s, h, Extending(sid, session.(expiresAt := NewExpiry(life, session, now)))).(honoured := honoured)
  }

  function Put(s: State, h: nat, sid: string, session: Session): State {
    Done(s, h).(sessions := s.sessions[sid := session])
  }

  function Step(life: Lifetime, s: State, a: Action): State
    requires Enabled(s, a)
  {
    match a
    case Tick(t) => s.(now := t)
    case Sweep(t) => s.(sessions := Swept(s.sessions, (v: Session) => v.expiresAt, t))
    case Abort(h) => Done(s, h)
    case Logout(sid) => s.(sessions := s.sessions - {sid})
    case Create(h, userID, authenticated, amr, sid, csrf) =>
      var session := Opened(life, userID, authenticated, amr, csrf, s.now);
      Goto(s, h, Creating(sid, session)).(origin := s.origin[sid := session], csrf := s.csrf[sid := csrf])
    case Store(h) => Put(s, h, s.procs[h].sid, s.procs[h].s)
    case Load(h, sid, why) =>
      if sid == "" || sid !in s.sessions then s else Goto(s, h, Judging(sid, s.sessions[sid], why))
    case Judge(h) =>
      var p := s.procs[h];
      if Lapsed(p.s, s.now) then Goto(s, h, Expiring(p.sid))
      else if p.s.csrfToken == "" then Goto(s, h, Backfilling(p.sid, p.why, s.now))
      else Proceed(life, s, h, p.sid, p.s, p.why, s.now)
    case Expire(h) => Done(s, h).(sessions := s.sessions - {s.procs[h].sid})
    case Backfill(h, csrf) =>
      var p := s.procs[h];
      if p.sid !in s.sessions then Done(s, h)
      else
        var session := WithCSRF(s.sessions[p.sid], csrf);
        Proceed(life, s, h, p.sid, session, p.why, p.now)
        .(sessions := s.sessions[p.sid := session], csrf := s.csrf[p.sid := session.csrfToken])
    case Extend(h) => Put(s, h, s.procs[h].sid, s.procs[h].s)
    case Reload(h) =>
      var p := s.procs[h];
      if p.sid !in s.sessions then Done(s, h) else Goto(s, h, Stamping(p.sid, s.sessions[p.sid]))
    case Stamp(h) => Goto(s, h, Confirming(s.procs[h].sid, s.procs[h].s.(reAuthAt := Some(s.now))))
    case Confirm(h) => Put(s, h, s.procs[h].sid, s.procs[h].s)
  }

  // ---- Invariant ----

  predicate WithinCeiling(s: Session) {
    s.absoluteExpiresAt.Some? ==> s.expiresAt <= s.absoluteExpiresAt.value
  }

  // What may never change
  predicate SameLogin(s: Session, o: Session) {
    s.userID == o.userID && s.authTime == o.authTime && s.absoluteExpiresAt == o.absoluteExpiresAt && s.amr == o.amr
  }

  // A copy of a session, possibly out of date
  predicate Copy(origin: map<string, Session>, csrf: map<string, string>, sid: string, s: Session) {
    && sid in origin && SameLogin(s, origin[sid]) && WithinCeiling(s)
    && (s.csrfToken != "" ==> sid in csrf && csrf[sid] == s.csrfToken)
  }

  // A copy that is or may yet be written: it has the CSRF token if the session ever got one
  predicate Current(origin: map<string, Session>, csrf: map<string, string>, sid: string, s: Session) {
    Copy(origin, csrf, sid, s) && (sid in csrf ==> s.csrfToken == csrf[sid])
  }

  predicate ProcOk(origin: map<string, Session>, csrf: map<string, string>, p: Proc) {
    match p
    case Creating(sid, s) => Current(origin, csrf, sid, s) && s.csrfToken != ""
    case Judging(sid, s, _) => Copy(origin, csrf, sid, s)
    case Expiring(sid) => true
    case Backfilling(sid, _, now) => sid in origin && BeforeCeiling(origin[sid], now)
    case Extending(sid, s) => Current(origin, csrf, sid, s) && s.csrfToken != ""
    case Reloading(sid) => sid in csrf
    case Stamping(sid, s) => Current(origin, csrf, sid, s) && s.csrfToken != ""
    case Confirming(sid, s) => Current(origin, csrf, sid, s) && s.csrfToken != ""
  }

  predicate HonourOk(origin: map<string, Session>, csrf: map<string, string>, e: Honour) {
    Current(origin, csrf, e.sid, e.s) && e.s.csrfToken != "" && BeforeCeiling(origin[e.sid], e.at)
  }

  ghost predicate SessionsOk(sessions: Bucket, origin: map<string, Session>, csrf: map<string, string>) {
    forall sid :: sid in sessions ==> Current(origin, csrf, sid, sessions[sid])
  }

  ghost predicate ProcsOk(procs: map<nat, Proc>, origin: map<string, Session>, csrf: map<string, string>) {
    forall h :: h in procs ==> ProcOk(origin, csrf, procs[h])
  }

  ghost predicate HonoursOk(honoured: seq<Honour>, origin: map<string, Session>, csrf: map<string, string>) {
    forall i :: 0 <= i < |honoured| ==> HonourOk(origin, csrf, honoured[i])
  }

  ghost predicate TokensOk(origin: map<string, Session>, csrf: map<string, string>) {
    forall sid :: sid in csrf ==> csrf[sid] != "" && sid in origin
  }

  ghost predicate Inv(s: State) {
    && SessionsOk(s.sessions, s.origin, s.csrf)
    && ProcsOk(s.procs, s.origin, s.csrf)
    && HonoursOk(s.honoured, s.origin, s.csrf)
    && TokensOk(s.origin, s.csrf)
  }

  // What an earlier version stored is fine as long as expiries respect ceilings; CSRF tokens may be missing
  predicate Init(s: State) {
    && (forall sid :: sid in s.sessions ==> WithinCeiling(s.sessions[sid]))
    && s.procs == map[] && s.honoured == [] && s.origin == s.sessions
    && s.csrf == map sid | sid in s.sessions && s.sessions[sid].csrfToken != "" :: s.sessions[sid].csrfToken
  }

  lemma InitInv(s: State)
    requires Init(s)
    ensures Inv(s)
  {
  }

  lemma CreateInv(life: Lifetime, s: State, a: Action)
    requires a.Create? && Enabled(s, a) && Inv(s) && (life.absolute > 0 ==> life.absolute >= life.ttl)
    ensures Inv(Step(life, s, a))
  {
    var t := Step(life, s, a);
    assert a.sid !in s.csrf;
    forall sid | sid in s.sessions
      ensures Current(t.origin, t.csrf, sid, s.sessions[sid])
    {
      assert Current(s.origin, s.csrf, sid, s.sessions[sid]);
    }
    forall h | h in s.procs
      ensures ProcOk(t.origin, t.csrf, s.procs[h])
    {
      assert ProcOk(s.origin, s.csrf, s.procs[h]);
    }
    forall i | 0 <= i < |s.honoured|
      ensures HonourOk(t.origin, t.csrf, s.honoured[i])
    {
      assert HonourOk(s.origin, s.csrf, s.honoured[i]);
    }
  }

  lemma ProceedOk(life: Lifetime, s: State, h: nat, sid: string, session: Session, why: Purpose, now: int,
                  origin: map<string, Session>, csrf: map<string, string>)
    requires ProcsOk(s.procs, origin, csrf) && HonoursOk(s.honoured, origin, csrf)
    requires HonourOk(origin, csrf, Honour(sid, session, now))
    ensures var t := Proceed(life, s, h, sid, session, why, now);
      ProcsOk(t.procs, origin, csrf) && HonoursOk(t.honoured, origin, csrf)
      && t.sessions == s.sessions && t.origin == s.origin && t.csrf == s.csrf && t.now == s.now
  {
    hide BeforeCeiling;
    var t := Proceed(life, s, h, sid, session, why, now);
    assert why.ToExtend? && !StillLong(life, session, now) ==>
      ProcOk(origin, csrf, Extending(sid, session.(expiresAt := NewExpiry(life, session, now))));
    assert ProcOk(origin, csrf, Reloading(sid));
    forall i | 0 <= i < |t.honoured|
      ensures HonourOk(origin, csrf, t.honoured[i])
    {
      assert i < |s.honoured| ==> t.honoured[i] == s.honoured[i];
    }
  }

  // Giving a session its CSRF token invalidates no copy that may still be written
  lemma TokenFitsSessions(sessions: Bucket, origin: map<string, Session>, csrf: map<string, string>, sid: string,
                          token: string)
    requires SessionsOk(sessions, origin, csrf) && TokensOk(origin, csrf) && sid in sessions && token != ""
    ensures var session := WithCSRF(sessions[sid], token);
      && SessionsOk(sessions[sid := session], origin, csrf[sid := session.csrfToken])
      && TokensOk(origin, csrf[sid := session.csrfToken])
      && Current(origin, csrf[sid := session.csrfToken], sid, session)
  {
    hide SameLogin, WithinCeiling;
    assert Current(origin, csrf, sid, sessions[sid]);
    var session := WithCSRF(sessions[sid], token);
    assert SameLogin(session, sessions[sid]) by { TokenKeepsLogin(sessions[sid], token); }
    TokenKeepsLogin(sessions[sid], token);
    LoginIsTransitive(session, sessions[sid], origin[sid]);
    forall other | other in sessions && other != sid
      ensures Current(origin, csrf[sid := session.csrfToken], other, sessions[other])
    {
      assert Current(origin, csrf, other, sessions[other]);
    }
  }

  lemma TokenKeepsLogin(s: Session, token: string)
    ensures SameLogin(WithCSRF(s, token), s) && (WithinCeiling(s) ==> WithinCeiling(WithCSRF(s, token)))
  {
  }

  lemma LoginIsTransitive(s: Session, t: Session, o: Session)
    requires SameLogin(s, t) && SameLogin(t, o)
    ensures SameLogin(s, o)
  {
  }

  lemma TokenFitsProcs(procs: map<nat, Proc>, honoured: seq<Honour>, origin: map<string, Session>,
                       csrf: map<string, string>, sid: string, token: string)
    requires ProcsOk(procs, origin, csrf) && HonoursOk(honoured, origin, csrf) && (sid in csrf ==> token == csrf[sid])
    ensures ProcsOk(procs, origin, csrf[sid := token]) && HonoursOk(honoured, origin, csrf[sid := token])
  {
    hide SameLogin, WithinCeiling, BeforeCeiling;
    forall h | h in procs
      ensures ProcOk(origin, csrf[sid := token], procs[h])
    {
      assert ProcOk(origin, csrf, procs[h]);
    }
    forall i | 0 <= i < |honoured|
      ensures HonourOk(origin, csrf[sid := token], honoured[i])
    {
      assert HonourOk(origin, csrf, honoured[i]);
    }
  }

  lemma BackfillInv(life: Lifetime, s: State, a: Action)
    requires a.Backfill? && Enabled(s, a) && Inv(s)
    ensures Inv(Step(life, s, a))
  {
    hide SameLogin, WithinCeiling, Proceed, SessionsOk, HonoursOk;
    var p := s.procs[a.h];
    assert ProcOk(s.origin, s.csrf, p);
    if p.sid in s.sessions {
      var session := WithCSRF(s.sessions[p.sid], a.csrf);
      assert Current(s.origin, s.csrf, p.sid, s.sessions[p.sid]) by { Stored(s.sessions, s.origin, s.csrf, p.sid); }
      TokenFitsSessions(s.sessions, s.origin, s.csrf, p.sid, a.csrf);
      TokenFitsProcs(s.procs, s.honoured, s.origin, s.csrf, p.sid, session.csrfToken);
      ProceedOk(life, s, a.h, p.sid, session, p.why, p.now, s.origin, s.csrf[p.sid := session.csrfToken]);
    }
  }

  lemma Stored(sessions: Bucket, origin: map<string, Session>, csrf: map<string, string>, sid: string)
    requires SessionsOk(sessions, origin, csrf) && sid in sessions
    ensures Current(origin, csrf, sid, sessions[sid])
  {
  }

  lemma JudgeInv(life: Lifetime, s: State, a: Action)
    requires a.Judge? && Enabled(s, a) && Inv(s)
    ensures Inv(Step(life, s, a))
  {
    var p := s.procs[a.h];
    assert ProcOk(s.origin, s.csrf, p);
    if !Lapsed(p.s, s.now) && p.s.csrfToken != "" {
      ProceedOk(life, s, a.h, p.sid, p.s, p.why, s.now, s.origin, s.csrf);
    }
  }

  lemma OtherInv(life: Lifetime, s: State, a: Action)
    requires !a.Create? && !a.Backfill? && !a.Judge? && Enabled(s, a) && Inv(s)
    ensures Inv(Step(life, s, a))
  {
    hide Proceed, BeforeCeiling, HonourOk;
    if a.Store? || a.Extend? || a.Reload? || a.Stamp? || a.Confirm? {
      assert ProcOk(s.origin, s.csrf, s.procs[a.h]);
    }
  }

  lemma StepInv(life: Lifetime, s: State, a: Action)
    requires Enabled(s, a) && Inv(s) && (life.absolute > 0 ==> life.absolute >= life.ttl)
    ensures Inv(Step(life, s, a))
  {
    hide Step, Inv, Enabled;
    if a.Create? {
      CreateInv(life, s, a);
    } else if a.Backfill? {
      BackfillInv(life, s, a);
    } else if a.Judge? {
      JudgeInv(life, s, a);
    } else {
      OtherInv(life, s, a);
    }
  }
}
