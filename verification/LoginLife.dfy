/** What a login opens, how long it lasts, and what ends it (handleLoginPost, handleLocalLogoutPost, handleReAuth). */
module LoginLife {
  import opened Entities
  import opened Scopes
  import opened Sessions
  import opened Handlers
  import opened Runs
  import opened CodeLife

  // The session is stored under its id until its sliding lifetime ends
  predicate Held(db: Db, sid: string, s: Session, now: int) {
    (sid in db.sessions ==> db.sessions[sid] == s) && (now <= s.expiresAt ==> sid in db.sessions)
  }

  // The cookie a call carries
  function CookieOf(call: Call): Option<string> {
    match call
    case Authorize(_, cookie, _) => Some(cookie)
    case ConsentPage(cookie, _) => Some(cookie)
    case Decide(cookie, _, _, _) => Some(cookie)
    case Visit(cookie) => Some(cookie)
    case Check(cookie) => Some(cookie)
    case ReAuth(cookie, _, _) => Some(cookie)
    case Logout(cookie, _) => Some(cookie)
    case _ => None
  }

  // Nobody comes with this cookie, and no draw repeats it
  predicate Elsewhere(e: Event, sid: string) {
    e.Serve? ==> e.draws.sid != sid && CookieOf(e.call) != Some(sid)
  }

  // No login draws this session id
  predicate Unrepeated(e: Event, sid: string) {
    e.Serve? ==> e.draws.sid != sid
  }

  // ---- What one event does to the sessions ----

  lemma TouchingOne(life: Lifetime, sessions: Bucket, cookie: string, csrf: string, now: int)
    ensures SameElsewhere(Validated(sessions, cookie, csrf, now).sessions, sessions, cookie)
    ensures SameElsewhere(Touched(life, sessions, cookie, csrf, now).sessions, sessions, cookie)
    ensures SameElsewhere(Touched(life, Validated(sessions, cookie, csrf, now).sessions, cookie, csrf, now).sessions,
                          sessions, cookie)
    ensures SameElsewhere(ReAuthenticated(Validated(sessions, cookie, csrf, now).sessions, cookie, now), sessions,
                          cookie)
  {
    hide StillLong, NewExpiry, Lapsed;
  }

  lemma AuthorizeTouchesOne(cfg: Settings, clients: map<string, Client>, db: Db, q: Query, cookie: string,
                            allowed: bool, d: Draws, now: int)
    ensures SameElsewhere(Authorized(cfg, clients, db, q, cookie, allowed, d, now).0.sessions, db.sessions, cookie)
  {
    hide Requested, Prompted, Validated, Touched, Proceeded, SameElsewhere;
    TouchingOne(cfg.life, db.sessions, cookie, d.csrf, now);
    Unchanged(db.sessions, cookie);
  }

  lemma DecideTouchesOne(cfg: Settings, db: Db, cookie: string, csrf: string, request: string, approve: bool, d: Draws,
                         now: int)
    ensures SameElsewhere(Decided(cfg, db, cookie, csrf, request, approve, d, now).0.sessions, db.sessions, cookie)
  {
    hide Validated, Decided, SameElsewhere;
    TouchingOne(cfg.life, db.sessions, cookie, d.csrf, now);
  }

  lemma SessionCallTouchesOne(cfg: Settings, clients: map<string, Client>, db: Db, call: Call, d: Draws, now: int)
    requires CookieOf(call).Some?
    ensures SameElsewhere(Handled(cfg, clients, db, call, d, now).0.sessions, db.sessions, CookieOf(call).value)
  {
    hide Authorized, Decided, Validated, Touched, ReAuthenticated, TrimSpace, SameElsewhere, LoggedOut;
    var cookie := CookieOf(call).value;
    TouchingOne(cfg.life, db.sessions, cookie, d.csrf, now);
    match call
    case Authorize(q, _, allowed) => AuthorizeTouchesOne(cfg, clients, db, q, cookie, allowed, d, now);
    case Decide(_, csrf, request, approve) => DecideTouchesOne(cfg, db, cookie, csrf, request, approve, d, now);
    case Logout(_, csrf) => LogoutTouchesOne(db, cookie, csrf, d, now);
    case _ =>
  }

  lemma LogoutTouchesOne(db: Db, cookie: string, csrf: string, d: Draws, now: int)
    ensures SameElsewhere(LoggedOut(db, cookie, csrf, d, now).0.sessions, db.sessions, cookie)
  {
    hide Validated;
    TouchingOne(Lifetime(0, 0), db.sessions, cookie, d.csrf, now);
  }

  lemma LoginTouchesOne(cfg: Settings, clients: map<string, Client>, db: Db, request: string,
                        user: Option<(string, seq<string>)>, allowed: bool, d: Draws, now: int)
    ensures SameElsewhere(LoggedIn(cfg, clients, db, request, user, allowed, d, now).0.sessions, db.sessions, d.sid)
  {
    hide Proceeded, Opened, SameElsewhere, LoggedIn, SameTokens;
    LoginCases(cfg, clients, db, request, user, allowed, d, now);
    Unchanged(db.sessions, d.sid);
    if user.Some? {
      var s := Opened(cfg.life, user.value.0, true, user.value.1, d.csrf, now);
      assert SameElsewhere(db.sessions[d.sid := s], db.sessions, d.sid) by { OnePut(db.sessions, d.sid, s); }
    }
  }

  lemma OnePut<K(!new), V>(a: map<K, V>, key: K, v: V)
    ensures SameElsewhere(a[key := v], a, key)
  {
  }

  lemma ServeHolds(cfg: Settings, clients: map<string, Client>, db: Db, call: Call, d: Draws, now: int, sid: string)
    requires d.sid != sid && CookieOf(call) != Some(sid)
    ensures var after := Handled(cfg, clients, db, call, d, now).0.sessions;
      (sid in after <==> sid in db.sessions) && (sid in db.sessions ==> after[sid] == db.sessions[sid])
  {
    hide LoggedIn, Refreshed, Redeemed, Introspected, InfoShown, Revoked, LoginShown;
    if call.Login? {
      LoginTouchesOne(cfg, clients, db, call.request, call.user, call.allowed, d, now);
    } else if CookieOf(call).Some? {
      hide Handled;
      SessionCallTouchesOne(cfg, clients, db, call, d, now);
    }
  }

  lemma SweepHolds(db: Db, reading: int, sid: string, s: Session, now: int)
    requires Held(db, sid, s, now) && reading <= now
    ensures Held(SweptDb(db, reading), sid, s, now)
  {
  }

  lemma {:induction false} RunHolds(cfg: Settings, db: Db, now: int, events: seq<Event>, later: int, sid: string,
                                    s: Session)
    requires Held(db, sid, s, now) && Between(now, events, later) && forall e :: e in events ==> Elsewhere(e, sid)
    ensures Held(After(cfg, db, events), sid, s, later)
    decreases |events|
  {
    hide Handled, SweptDb, CookieOf;
    if events != [] {
      var e := events[0];
      assert Elsewhere(e, sid);
      if e.Serve? {
        ServeHolds(cfg, e.clients, db, e.call, e.draws, e.at, sid);
      } else {
        SweepHolds(db, e.reading, sid, s, e.at);
      }
      RunHolds(cfg, Next(cfg, db, e), e.at, events[1..], later, sid, s);
    }
  }

  // ---- How long a session lasts ----

  // Within the sliding lifetime and before the ceiling
  predicate Honoured(s: Session, now: int) {
    now <= s.expiresAt && (s.absoluteExpiresAt.Some? ==> now <= s.absoluteExpiresAt.value)
  }

  lemma HeldIsHonoured(db: Db, sid: string, s: Session, csrf: string, now: int)
    requires Held(db, sid, s, now) && sid != "" && s.csrfToken != ""
    ensures Validated(db.sessions, sid, csrf, now).found == if Honoured(s, now) then Some(s) else None
  {
  }

  /** A session that nobody visits is honoured exactly up to the end of its sliding lifetime or its ceiling, whichever
      comes first, whatever other calls and sweeps come in between. */
  lemma SessionLasts(cfg: Settings, db: Db, sid: string, s: Session, now: int, events: seq<Event>,
                     clients: map<string, Client>, d: Draws, later: int)
    requires Held(db, sid, s, now) && sid != "" && s.csrfToken != ""
    requires Between(now, events, later) && forall e :: e in events ==> Elsewhere(e, sid)
    ensures Handled(cfg, clients, After(cfg, db, events), Check(sid), d, later).1 ==
            Home(if Honoured(s, later) then Some(s) else None)
  {
    hide Held, After, Between, Honoured, Validated;
    RunHolds(cfg, db, now, events, later, sid, s);
    HeldIsHonoured(After(cfg, db, events), sid, s, d.csrf, later);
  }

  // ---- Visiting ----

  // When a session visited at this moment ends: it is renewed once no more than half of its lifetime is left
  function EndAfterVisit(life: Lifetime, s: Session, now: int): int {
    if life.ttl <= 0 || 2 * (s.expiresAt - now) > life.ttl then s.expiresAt
    else if s.absoluteExpiresAt.Some? && s.absoluteExpiresAt.value < now + life.ttl then s.absoluteExpiresAt.value
    else now + life.ttl
  }

  lemma VisitRenews(cfg: Settings, clients: map<string, Client>, db: Db, sid: string, d: Draws, now: int)
    requires sid != "" && sid in db.sessions && Honoured(db.sessions[sid], now) && db.sessions[sid].csrfToken != ""
    ensures var r, s := Handled(cfg, clients, db, Visit(sid), d, now), db.sessions[sid];
      && r.1 == Home(Some(s.(expiresAt := EndAfterVisit(cfg.life, s, now))))
      && sid in r.0.sessions && r.0.sessions[sid] == s.(expiresAt := EndAfterVisit(cfg.life, s, now))
  {
    hide Touched, EndAfterVisit;
    TouchRenews(cfg.life, db.sessions, sid, d.csrf, now);
  }

  lemma TouchRenews(life: Lifetime, sessions: Bucket, sid: string, csrf: string, now: int)
    requires sid != "" && sid in sessions && Honoured(sessions[sid], now) && sessions[sid].csrfToken != ""
    ensures var v, s := Touched(life, sessions, sid, csrf, now), sessions[sid];
      && v.found == Some(s.(expiresAt := EndAfterVisit(life, s, now)))
      && sid in v.sessions && v.sessions[sid] == s.(expiresAt := EndAfterVisit(life, s, now))
  {
    if life.ttl > 0 {
      HalfIsHalf(sessions[sid].expiresAt - now, life.ttl);
    }
  }

  lemma HalfIsHalf(left: int, ttl: int)
    requires ttl > 0
    ensures left > ttl / 2 <==> 2 * left > ttl
  {
  }

  /** A visit keeps the session as it is while more than half of its lifetime is left, and otherwise renews it for one
      lifetime but not past the ceiling; it is then honoured exactly up to that end. */
  lemma VisitLasts(cfg: Settings, clients: map<string, Client>, db: Db, sid: string, d: Draws, now: int,
                   events: seq<Event>, e: Draws, later: int)
    requires sid != "" && sid in db.sessions && Honoured(db.sessions[sid], now) && db.sessions[sid].csrfToken != ""
    requires Between(now, events, later) && forall e :: e in events ==> Elsewhere(e, sid)
    ensures var s := db.sessions[sid]; var renewed := s.(expiresAt := EndAfterVisit(cfg.life, s, now));
      var r := Handled(cfg, clients, db, Visit(sid), d, now);
      && r.1 == Home(Some(renewed))
      && Handled(cfg, clients, After(cfg, r.0, events), Check(sid), e, later).1 ==
         Home(if Honoured(renewed, later) then Some(renewed) else None)
  {
    hide After, Between, Handled, EndAfterVisit, Honoured;
    VisitRenews(cfg, clients, db, sid, d, now);
    var r := Handled(cfg, clients, db, Visit(sid), d, now).0;
    SessionLasts(cfg, r, sid, r.sessions[sid], now, events, clients, e, later);
  }

  // ---- Logging in ----

  // The login page was opened without a request, or with one that is still live
  predicate LoginOpen(db: Db, request: string, now: int) {
    request == "" || (request in db.requests && now <= db.requests[request].expiresAt)
  }

  // What a login at this moment opens
  function NewSession(life: Lifetime, userID: string, amr: seq<string>, csrf: string, now: int): Session {
    var ceiling := if life.absolute > 0 then Some(now + life.absolute) else None;
    Session(userID := userID, authTime := now, reAuthAt := Some(now), amr := amr, csrfToken := csrf,
            expiresAt := now + life.ttl, absoluteExpiresAt := ceiling)
  }

  lemma LoginOpens(cfg: Settings, clients: map<string, Client>, db: Db, request: string, userID: string,
                   amr: seq<string>, allowed: bool, d: Draws, now: int)
    requires LoginOpen(db, request, now)
    ensures var r := LoggedIn(cfg, clients, db, request, Some((userID, amr)), allowed, d, now);
      && r.0.sessions == db.sessions[d.sid := NewSession(cfg.life, userID, amr, d.csrf, now)]
      && (request == "" ==> r.1 == Home(Some(NewSession(cfg.life, userID, amr, d.csrf, now))))
  {
    hide Proceeded, LoggedIn, SameTokens;
    LoginCases(cfg, clients, db, request, Some((userID, amr)), allowed, d, now);
  }

  /** After a login with good credentials, with or without an authorization request, the session cookie is honoured for
      that user, with the moment and the means of the login, exactly up to the end of the sliding lifetime or the
      ceiling, whatever calls and sweeps come in between without the cookie. */
  lemma LoginLasts(cfg: Settings, clients: map<string, Client>, db: Db, request: string, userID: string,
                   amr: seq<string>, allowed: bool, d: Draws, now: int, events: seq<Event>, e: Draws, later: int)
    requires LoginOpen(db, request, now) && d.sid != "" && d.csrf != ""
    requires Between(now, events, later) && forall e :: e in events ==> Elsewhere(e, d.sid)
    ensures var db1 := Handled(cfg, clients, db, Login(request, Some((userID, amr)), allowed), d, now).0;
      Handled(cfg, clients, After(cfg, db1, events), Check(d.sid), e, later).1 ==
      Home(if later <= now + cfg.life.ttl && (cfg.life.absolute > 0 ==> later <= now + cfg.life.absolute) then
        Some(NewSession(cfg.life, userID, amr, d.csrf, now)) else None)
  {
    hide After, Between, LoggedIn, Validated;
    LoginOpens(cfg, clients, db, request, userID, amr, allowed, d, now);
    var db1 := LoggedIn(cfg, clients, db, request, Some((userID, amr)), allowed, d, now).0;
    SessionLasts(cfg, db1, d.sid, NewSession(cfg.life, userID, amr, d.csrf, now), now, events, clients, e, later);
  }

  /** A login that fails opens nothing: an expired request is reported as such, and after wrong credentials the store is
      as it was, so that the user can try again. */
  lemma FailedLoginOpensNothing(cfg: Settings, clients: map<string, Client>, db: Db, request: string,
                                user: Option<(string, seq<string>)>, allowed: bool, d: Draws, now: int)
    requires user.None? || !LoginOpen(db, request, now)
    requires request in db.requests ==> db.requests[request].id == request
    ensures Handled(cfg, clients, db, Login(request, user, allowed), d, now) ==
            if LoginOpen(db, request, now) then (db, Failed(BadCredentials))
            else (db.(requests := db.requests - {request}), Failed(RequestExpired))
  {
    hide Proceeded, Opened, LoggedIn, SameTokens;
    LoginCases(cfg, clients, db, request, user, allowed, d, now);
    if request in db.requests {
      assert (db.requests - {request})[request := db.requests[request]] == db.requests;
    }
  }

  // ---- Logging out ----

  // A visitor with this cookie, at this moment
  function Visitor(db: Db, cookie: string, csrf: string, now: int): Option<Session> {
    if cookie != "" && cookie in db.sessions && Honoured(db.sessions[cookie], now) then
      var s := db.sessions[cookie];
      Some(if s.csrfToken == "" then s.(csrfToken := csrf) else s)
    else None
  }

  lemma VisitorIsValid(db: Db, cookie: string, csrf: string, now: int)
    ensures Validated(db.sessions, cookie, csrf, now).found == Visitor(db, cookie, csrf, now)
  {
  }

  lemma {:induction false} RunLeavesGone(cfg: Settings, db: Db, events: seq<Event>, sid: string)
    requires sid !in db.sessions && forall e :: e in events ==> Unrepeated(e, sid)
    ensures sid !in After(cfg, db, events).sessions
    decreases |events|
  {
    hide Handled;
    if events != [] {
      var e := events[0];
      assert Unrepeated(e, sid);
      if e.Serve? {
        ServeLeavesGone(cfg, e.clients, db, e.call, e.draws, e.at, sid);
      }
      RunLeavesGone(cfg, Next(cfg, db, e), events[1..], sid);
    }
  }

  lemma GoneStaysUntouched(life: Lifetime, sessions: Bucket, sid: string, csrf: string, now: int)
    requires sid !in sessions
    ensures Validated(sessions, sid, csrf, now).sessions == sessions && Validated(sessions, sid, csrf, now).found.None?
    ensures Touched(life, sessions, sid, csrf, now).sessions == sessions
  {
  }

  lemma ServeLeavesGone(cfg: Settings, clients: map<string, Client>, db: Db, call: Call, d: Draws, now: int,
                        sid: string)
    requires sid !in db.sessions && d.sid != sid
    ensures sid !in Handled(cfg, clients, db, call, d, now).0.sessions
  {
    if CookieOf(call) == Some(sid) {
      hide Validated, Touched, Requested, Prompted, Proceeded, Answered, TrimSpace;
      GoneStaysUntouched(cfg.life, db.sessions, sid, d.csrf, now);
    } else {
      hide Handled, CookieOf;
      ServeHolds(cfg, clients, db, call, d, now, sid);
    }
  }

  lemma LogoutAnswers(db: Db, cookie: string, csrf: string, d: Draws, now: int)
    ensures var r, visitor := LoggedOut(db, cookie, csrf, d, now), Visitor(db, cookie, d.csrf, now);
      && r.1 == (if visitor.None? || (csrf != "" && csrf == visitor.value.csrfToken) then Done else Failed(BadCSRF))
      && (r.1.Done? && cookie != "" ==> cookie !in r.0.sessions)
      && (r.1.Failed? ==> Visitor(r.0, cookie, d.csrf, now) == visitor)
  {
    VisitorIsValid(db, cookie, d.csrf, now);
  }

  /** A logout is accepted exactly when there is no visitor or the CSRF token is the visitor's; the cookie is then never
      honoured again, whatever calls and sweeps follow. A refused logout changes nothing for the visitor. */
  lemma LogoutEnds(cfg: Settings, clients: map<string, Client>, db: Db, cookie: string, csrf: string, d: Draws,
                   now: int, events: seq<Event>, e: Draws, later: int)
    requires forall e :: e in events ==> Unrepeated(e, cookie)
    ensures var r := Handled(cfg, clients, db, Logout(cookie, csrf), d, now);
      var visitor := Visitor(db, cookie, d.csrf, now);
      && r.1 == (if visitor.None? || (csrf != "" && csrf == visitor.value.csrfToken) then Done else Failed(BadCSRF))
      && (r.1.Done? ==> Handled(cfg, clients, After(cfg, r.0, events), Check(cookie), e, later).1 == Home(None))
      && (r.1.Failed? ==> Visitor(r.0, cookie, d.csrf, now) == visitor)
  {
    hide After, LoggedOut, Visitor, Validated;
    LogoutAnswers(db, cookie, csrf, d, now);
    var r := LoggedOut(db, cookie, csrf, d, now);
    if r.1.Done? && cookie != "" {
      RunLeavesGone(cfg, r.0, events, cookie);
    }
    CheckedOut(cfg, clients, After(cfg, r.0, events), cookie, e, later);
  }

  lemma CheckedOut(cfg: Settings, clients: map<string, Client>, db: Db, cookie: string, e: Draws, later: int)
    ensures cookie == "" || cookie !in db.sessions ==>
              Handled(cfg, clients, db, Check(cookie), e, later).1 == Home(None)
  {
  }

  /** handleReAuth stamps the session of a visitor who sends its CSRF token and the right password, and of nobody else;
      nothing else about the session changes. */
  lemma ReAuthStampsExactly(cfg: Settings, clients: map<string, Client>, db: Db, cookie: string, csrf: string,
                            passwordOk: bool, d: Draws, now: int)
    ensures var r := Handled(cfg, clients, db, ReAuth(cookie, csrf, passwordOk), d, now);
      var visitor := Visitor(db, cookie, d.csrf, now);
      && r.1 == (if visitor.None? then Failed(NotAuthenticated)
                 else if csrf == "" || csrf != visitor.value.csrfToken then Failed(BadCSRF)
                 else if !passwordOk then Failed(BadCredentials) else Done)
      && Visitor(r.0, cookie, d.csrf, now) ==
         if r.1.Done? then Some(visitor.value.(reAuthAt := Some(now))) else visitor
  {
    VisitorIsValid(db, cookie, d.csrf, now);
  }
}
