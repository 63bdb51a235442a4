/** The session part of every handler on its own is a run of the concurrent session protocol. */
module SoloLogin {
  import opened Entities
  import opened Sessions
  import opened Handlers
  import F = SessionFlow
  import opened SoloSession
  import Scopes
  import Flow = AuthorizationFlow

  lemma {:induction false} Joined(life: Lifetime, s: F.State, first: seq<F.Action>, t: F.State, second: seq<F.Action>,
                                  u: F.State)
    requires Leads(life, s, first, t) && Leads(life, t, second, u)
    ensures Leads(life, s, first + second, u)
    decreases |first|
  {
    hide F.Step;
    if first == [] {
      assert first + second == second;
    } else {
      assert (first + second)[1..] == first[1..] + second;
      Joined(life, F.Step(life, s, first[0]), first[1..], t, second, u);
    }
  }

  // The protocol has the sessions of the store, and nobody is in flight who was not before
  predicate Agrees(s: F.State, sessions: Bucket, t: F.State) {
    t.sessions == sessions && t.procs == s.procs && t.now == s.now
  }

  // A new session is drawn and stored
  lemma Opening(life: Lifetime, s: F.State, h: nat, userID: string, amr: seq<string>, sid: string, csrf: string)
    returns (actions: seq<F.Action>, t: F.State)
    requires h !in s.procs && Base64Url(sid) && sid !in s.origin && Base64Url(csrf)
    ensures Leads(life, s, actions, t)
    ensures Agrees(s, s.sessions[sid := Opened(life, userID, true, amr, csrf, s.now)], t)
  {
    hide Leads, Base64Url, F.Proceed;
    var create, store := F.Create(h, userID, true, amr, sid, csrf), F.Store(h);
    Nowhere(life, s);
    Advance(life, s, [], s, create);
    var u := F.Step(life, s, create);
    Advance(life, s, [] + [create], u, store);
    actions, t := [] + [create] + [store], F.Step(life, u, store);
    assert u.procs - {h} == s.procs;
  }

  lemma Leaving(life: Lifetime, s: F.State, sid: string) returns (actions: seq<F.Action>, t: F.State)
    ensures Leads(life, s, actions, t) && Agrees(s, s.sessions - {sid}, t)
  {
    hide Leads, F.Proceed;
    Nowhere(life, s);
    Advance(life, s, [], s, F.Logout(sid));
    actions, t := [] + [F.Logout(sid)], F.Step(life, s, F.Logout(sid));
  }

  // Up to the verdict on the session, and on with it if it is to be extended
  lemma Looking(life: Lifetime, s: F.State, h: nat, cookie: string, csrf: string, extend: bool)
    returns (actions: seq<F.Action>, t: F.State)
    requires h !in s.procs && Base64Url(csrf)
    ensures Leads(life, s, actions, t)
    ensures var v := Validated(s.sessions, cookie, csrf, s.now);
      Agrees(s, if extend then Touched(life, v.sessions, cookie, csrf, s.now).sessions else v.sessions, t)
  {
    hide Leads, Base64Url, Validated, Touched;
    actions, t := ValidateAlone(life, s, h, cookie, csrf);
    if extend {
      var more, u := ExtendAlone(life, t, h, cookie, csrf);
      Joined(life, s, actions, t, more, u);
      actions, t := actions + more, u;
    }
  }

  lemma SessionsAfterAuthorize(cfg: Settings, clients: map<string, Client>, db: Db, q: Query, cookie: string,
                               allowed: bool, d: Draws, now: int) returns (looked: bool, extend: bool)
    ensures var v := Validated(db.sessions, cookie, d.csrf, now);
      Authorized(cfg, clients, db, q, cookie, allowed, d, now).0.sessions ==
      if !looked then db.sessions
      else if extend then Touched(cfg.life, v.sessions, cookie, d.csrf, now).sessions else v.sessions
  {
    hide Scopes.AuthorizationScope, Flow.PKCEAcceptable, Prompted, Validated, Touched, Proceeded;
    var ar, v := Requested(cfg, clients, q, d.id, now), Validated(db.sessions, cookie, d.csrf, now);
    looked := ar.Ok?;
    extend := false;
    if looked {
      var verdict := Prompted(db.consents, q, ar.value.scope, clients[q.clientID], v.found, now);
      extend := verdict.Proceed? && v.found.Some? && !verdict.forceLogin;
    }
  }

  lemma Stays(life: Lifetime, s: F.State) returns (actions: seq<F.Action>, t: F.State)
    ensures Leads(life, s, actions, t) && Agrees(s, s.sessions, t)
  {
    hide Leads;
    Nowhere(life, s);
    actions, t := [], s;
  }

  lemma AuthorizeSession(cfg: Settings, clients: map<string, Client>, db: Db, q: Query, cookie: string, allowed: bool,
                         d: Draws, s: F.State, h: nat)
    returns (actions: seq<F.Action>, t: F.State)
    requires db.sessions == s.sessions && h !in s.procs && Base64Url(d.csrf)
    ensures Leads(cfg.life, s, actions, t)
    ensures Agrees(s, Authorized(cfg, clients, db, q, cookie, allowed, d, s.now).0.sessions, t)
  {
    hide Leads, Base64Url, Authorized, Validated, Touched;
    var looked, extend := SessionsAfterAuthorize(cfg, clients, db, q, cookie, allowed, d, s.now);
    if looked {
      actions, t := Looking(cfg.life, s, h, cookie, d.csrf, extend);
    } else {
      actions, t := Stays(cfg.life, s);
    }
  }

  lemma SessionsAfterLogin(cfg: Settings, clients: map<string, Client>, db: Db, request: string,
                           user: Option<(string, seq<string>)>, allowed: bool, d: Draws, now: int)
    ensures LoggedIn(cfg, clients, db, request, user, allowed, d, now).0.sessions ==
            if user.Some? && (request == "" || (request in db.requests && !(now > db.requests[request].expiresAt))) then
              db.sessions[d.sid := Opened(cfg.life, user.value.0, true, user.value.1, d.csrf, now)]
            else db.sessions
  {
    hide Proceeded, Opened, LoggedIn, SameTokens;
    LoginCases(cfg, clients, db, request, user, allowed, d, now);
  }

  lemma LoginSession(cfg: Settings, clients: map<string, Client>, db: Db, request: string,
                     user: Option<(string, seq<string>)>, allowed: bool, d: Draws, s: F.State, h: nat)
    returns (actions: seq<F.Action>, t: F.State)
    requires db.sessions == s.sessions && h !in s.procs && Base64Url(d.csrf) && Base64Url(d.sid) && d.sid !in s.origin
    ensures Leads(cfg.life, s, actions, t)
    ensures Agrees(s, LoggedIn(cfg, clients, db, request, user, allowed, d, s.now).0.sessions, t)
  {
    hide Leads, Base64Url, LoggedIn, Opened;
    SessionsAfterLogin(cfg, clients, db, request, user, allowed, d, s.now);
    if user.Some? && (request == "" || (request in db.requests && !(s.now > db.requests[request].expiresAt))) {
      actions, t := Opening(cfg.life, s, h, user.value.0, user.value.1, d.sid, d.csrf);
    } else {
      actions, t := Stays(cfg.life, s);
    }
  }

  lemma ReAuthSession(cfg: Settings, db: Db, cookie: string, csrf: string, passwordOk: bool, d: Draws, s: F.State,
                      h: nat)
    returns (actions: seq<F.Action>, t: F.State)
    requires db.sessions == s.sessions && h !in s.procs && Base64Url(d.csrf)
    ensures Leads(cfg.life, s, actions, t)
    ensures Agrees(s, ReAuthed(db, cookie, csrf, passwordOk, d, s.now).0.sessions, t)
  {
    hide Leads, Base64Url, Validated, ReAuthenticated;
    var v := Validated(db.sessions, cookie, d.csrf, s.now);
    if v.found.Some? && csrf != "" && csrf == v.found.value.csrfToken && passwordOk {
      actions, t := ReAuthAlone(cfg.life, s, h, cookie, d.csrf);
    } else {
      actions, t := Looking(cfg.life, s, h, cookie, d.csrf, false);
    }
  }

  lemma LogoutSession(cfg: Settings, db: Db, cookie: string, csrf: string, d: Draws, s: F.State, h: nat)
    returns (actions: seq<F.Action>, t: F.State)
    requires db.sessions == s.sessions && h !in s.procs && Base64Url(d.csrf)
    ensures Leads(cfg.life, s, actions, t)
    ensures Agrees(s, LoggedOut(db, cookie, csrf, d, s.now).0.sessions, t)
  {
    hide Leads, Base64Url, Validated;
    var v := Validated(db.sessions, cookie, d.csrf, s.now);
    actions, t := Looking(cfg.life, s, h, cookie, d.csrf, false);
    if (v.found.None? || (csrf != "" && csrf == v.found.value.csrfToken)) && cookie != "" {
      var more, u := Leaving(cfg.life, t, cookie);
      Joined(cfg.life, s, actions, t, more, u);
      actions, t := actions + more, u;
    }
  }

  // The calls that only look at the session, and whether they extend it
  predicate Looks(call: Call) {
    call.ConsentPage? || call.Decide? || call.Check? || call.Visit?
  }

  lemma LookingSession(cfg: Settings, clients: map<string, Client>, db: Db, call: Call, d: Draws, s: F.State, h: nat)
    returns (actions: seq<F.Action>, t: F.State)
    requires db.sessions == s.sessions && h !in s.procs && Base64Url(d.csrf) && Looks(call)
    ensures Leads(cfg.life, s, actions, t)
    ensures Agrees(s, Handled(cfg, clients, db, call, d, s.now).0.sessions, t)
  {
    hide Leads, Base64Url, Validated, Touched, Decided, ConsentShown;
    if call.Visit? {
      actions, t := ExtendAlone(cfg.life, s, h, call.cookie, d.csrf);
    } else {
      actions, t := Looking(cfg.life, s, h, call.cookie, d.csrf, false);
    }
  }

  // The calls that have nothing to do with sessions
  predicate Ignores(call: Call) {
    call.LoginPage? || call.Redeem? || call.Refresh? || call.Introspect? || call.Revoke? || call.UserInfo?
  }

  lemma IgnoringSession(cfg: Settings, clients: map<string, Client>, db: Db, call: Call, d: Draws, now: int)
    requires Ignores(call)
    ensures Handled(cfg, clients, db, call, d, now).0.sessions == db.sessions
  {
    hide Redeemed, Refreshed, Introspected, InfoShown, Revoked, LoginShown;
  }

  /** Whatever the call, what a handler does to the sessions on its own is a run of the session protocol. */
  lemma SessionsAlone(cfg: Settings, clients: map<string, Client>, db: Db, call: Call, d: Draws, s: F.State, h: nat)
    returns (actions: seq<F.Action>, t: F.State)
    requires db.sessions == s.sessions && h !in s.procs && Base64Url(d.csrf) && Base64Url(d.sid) && d.sid !in s.origin
    ensures Leads(cfg.life, s, actions, t)
    ensures Agrees(s, Handled(cfg, clients, db, call, d, s.now).0.sessions, t)
  {
    hide Leads, Base64Url, Authorized, LoggedIn, ReAuthed, LoggedOut, Agrees;
    if Looks(call) {
      hide Handled;
      actions, t := LookingSession(cfg, clients, db, call, d, s, h);
    } else if Ignores(call) {
      hide Handled;
      IgnoringSession(cfg, clients, db, call, d, s.now);
      actions, t := Stays(cfg.life, s);
    } else {
      match call
      case Authorize(q, cookie, allowed) =>
        actions, t := AuthorizeSession(cfg, clients, db, q, cookie, allowed, d, s, h);
      case Login(request, user, allowed) =>
        actions, t := LoginSession(cfg, clients, db, request, user, allowed, d, s, h);
      case ReAuth(cookie, csrf, passwordOk) => actions, t := ReAuthSession(cfg, db, cookie, csrf, passwordOk, d, s, h);
      case Logout(cookie, csrf) => actions, t := LogoutSession(cfg, db, cookie, csrf, d, s, h);
    }
  }
}
