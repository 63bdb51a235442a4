/** Authorize, login, consent and redemption on their own are runs of the concurrent flow: the handlers as functions
    and the protocol's steps describe the same program. */
module SoloFlow {
  import opened Entities
  import opened Scopes
  import opened Consents
  import opened Handlers
  import opened FlowRuns
  import S = Sessions
  import F = AuthorizationFlow

  // The buckets of a store are those of a state of the flow
  predicate Stored(db: Db, s: F.State) {
    db.requests == s.requests && db.codes == s.codes && db.consents == s.consents
  }

  // The state a handler leaves behind; a code is issued exactly when the client is sent one
  ghost predicate Matches(s: F.State, code: string, r: (Db, Response), t: F.State) {
    && Stored(r.0, t) && t.procs == s.procs && t.clients == s.clients
    && (if r.1.GoClient? then
          && Digest(code) in t.past.issued && Digest(code) in r.0.codes
          && t.past.issued[Digest(code)].code == r.0.codes[Digest(code)]
        else t.past.issued == s.past.issued)
  }

  // What a session gives to a code
  function LoginOf(s: Session): F.Login {
    F.Login(s.userID, s.authTime, s.amr)
  }

  lemma Issue(cfg: Settings, s: F.State, sofar: seq<F.Action>, b: F.State, h: nat, ar: AuthRequest, session: Session,
              consented: bool, code: string, now: int, db: Db)
    returns (actions: seq<F.Action>, t: F.State)
    requires h !in b.procs && F.Fresh(b, code) && Stored(db, b)
    requires Leads(cfg.flow, s, sofar, F.Goto(b, h, F.Issuing(ar, LoginOf(session), consented)))
    ensures Leads(cfg.flow, s, actions, t)
    ensures Matches(b, code, CodeIssued(cfg, db, ar, session, code, now), t)
  {
    hide Leads, F.Fresh, F.Step;
    var login := LoginOf(session);
    Draw(cfg.flow, s, sofar, b, h, ar, login, consented, code, now);
    var p := F.StoringCode(ar, Digest(code), F.CodeFor(ar, login, now + cfg.flow.codeTTL), consented);
    actions := sofar + [F.DrawCode(h, code, now)];
    t := Keep(cfg.flow, s, actions, b.(drawn := b.drawn + {code}), h, p);
    actions := actions + [F.StoreCode(h)];
  }

  lemma FreshStill(s: F.State, b: F.State, code: string)
    requires F.Fresh(s, code) && b.drawn == s.drawn
    ensures F.Fresh(b, code)
  {
  }

  lemma ConsentDecides(cfg: Settings, s: F.State, sofar: seq<F.Action>, b: F.State, h: nat, ar: AuthRequest,
                       session: Session,
                       allowed: bool, code: string, now: int, db: Db)
    returns (actions: seq<F.Action>, t: F.State)
    requires h !in b.procs && F.Fresh(b, code) && Stored(db, b)
    requires ar.clientID in b.clients && b.clients[ar.clientID].requireConsent
    requires Leads(cfg.flow, s, sofar, F.Goto(b, h, F.Proceeding(ar, LoginOf(session))))
    ensures Leads(cfg.flow, s, actions, t)
    ensures Matches(b, code, Proceeded(cfg, b.clients, db, ar, session, allowed, code, now), t)
  {
    hide Leads, F.Fresh, ConsentKey, RequestedScopes, Covers, CodeIssued, F.Step;
    var login := LoginOf(session);
    var k := ConsentKey(login.userID, ar.clientID);
    var found := if k in b.consents then Some(b.consents[k]) else None;
    actions := Consult(cfg.flow, s, sofar, b, h, ar, login);
    var b1 := LookedUp(b, ar);
    FreshStill(b, b1, code);
    if found.Some? && Covers(found.value.scopes, RequestedScopes(ar.scope)) {
      DecideNow(cfg.flow, s, actions, b1, h, ar, login, found, now);
      actions, t := Issue(cfg, s, actions + [F.Decide(h, now)], b1, h, ar, session, true, code, now, db);
    } else if allowed {
      DecideNow(cfg.flow, s, actions, b1, h, ar, login, found, now);
      actions, t := PutBack(cfg.flow, s, actions + [F.Decide(h, now)], b1, h, ar.(expiresAt := now + F.CONSENT_EXPIRY));
    } else {
      actions := GiveUp(cfg.flow, s, actions, b1, h, F.Deciding(ar, login, found));
      t := b1;
    }
  }

  // No consent needed, or no such client any more
  lemma StraightOn(cfg: Settings, s: F.State, sofar: seq<F.Action>, b: F.State, h: nat, ar: AuthRequest,
                   session: Session,
                   allowed: bool, code: string, now: int, db: Db)
    returns (actions: seq<F.Action>, t: F.State)
    requires h !in b.procs && F.Fresh(b, code) && Stored(db, b)
    requires ar.clientID in b.clients ==> !b.clients[ar.clientID].requireConsent
    requires Leads(cfg.flow, s, sofar, F.Goto(b, h, F.Proceeding(ar, LoginOf(session))))
    ensures Leads(cfg.flow, s, actions, t)
    ensures Matches(b, code, Proceeded(cfg, b.clients, db, ar, session, allowed, code, now), t)
  {
    hide Leads, F.Fresh, ConsentKey, RequestedScopes, Covers, CodeIssued, ConsentGiven, AuthorizationScope;
    var login := LoginOf(session);
    var p := F.Proceeding(ar, login);
    Advance(cfg.flow, s, sofar, F.Goto(b, h, p), F.Proceed(h));
    actions := sofar + [F.Proceed(h)];
    if ar.clientID in b.clients {
      var b1 := LookedUp(b, ar);
      FreshStill(b, b1, code);
      Regoto(b1, h, p, F.Issuing(ar, login, false));
      actions, t := Issue(cfg, s, actions, b1, h, ar, session, false, code, now, db);
    } else {
      Regoto(b, h, p, p);
      t := b;
    }
  }

  lemma ProceedAlone(cfg: Settings, s: F.State, sofar: seq<F.Action>, b: F.State, h: nat, ar: AuthRequest,
                     session: Session,
                     allowed: bool, code: string, now: int, db: Db)
    returns (actions: seq<F.Action>, t: F.State)
    requires h !in b.procs && F.Fresh(b, code) && Stored(db, b)
    requires Leads(cfg.flow, s, sofar, F.Goto(b, h, F.Proceeding(ar, LoginOf(session))))
    ensures Leads(cfg.flow, s, actions, t)
    ensures Matches(b, code, Proceeded(cfg, b.clients, db, ar, session, allowed, code, now), t)
  {
    hide Leads, F.Fresh, Proceeded, Matches;
    if ar.clientID in b.clients && b.clients[ar.clientID].requireConsent {
      actions, t := ConsentDecides(cfg, s, sofar, b, h, ar, session, allowed, code, now, db);
    } else {
      actions, t := StraightOn(cfg, s, sofar, b, h, ar, session, allowed, code, now, db);
    }
  }

  // ---- Login ----

  lemma TakeForLogin(cfg: Settings, s: F.State, h: nat, id: string) returns (actions: seq<F.Action>)
    requires h !in s.procs && id in s.requests
    ensures Leads(cfg.flow, s, actions, F.Goto(s.(requests := s.requests - {id}), h, F.LoggingIn(s.requests[id])))
  {
    hide Leads, AuthorizationScope;
    Nowhere(cfg.flow, s);
    Advance(cfg.flow, s, [], s, F.ConsumeForLogin(h, id));
    actions := [] + [F.ConsumeForLogin(h, id)];
  }

  lemma LoginAnswer(cfg: Settings, s: F.State, sofar: seq<F.Action>, b: F.State, h: nat, ar: AuthRequest,
                    login: Option<F.Login>, now: int)
    returns (actions: seq<F.Action>)
    requires h !in b.procs && Leads(cfg.flow, s, sofar, F.Goto(b, h, F.LoggingIn(ar)))
    ensures Leads(cfg.flow, s, actions,
                  if now > ar.expiresAt then b
                  else if login.None? then F.Goto(b, h, F.Putting(ar)) else F.Goto(b, h, F.Proceeding(ar, login.value)))
  {
    hide Leads, AuthorizationScope, ConsentKey, RequestedScopes;
    var a := if login.None? then F.LoginFails(h, now) else F.LoginSucceeds(h, login.value, now);
    Advance(cfg.flow, s, sofar, F.Goto(b, h, F.LoggingIn(ar)), a);
    Regoto(b, h, F.LoggingIn(ar), if login.None? then F.Putting(ar) else F.Proceeding(ar, login.value));
    actions := sofar + [a];
  }

  // The requests and the sessions after the request was taken
  function Taking(db: Db, id: string): Db {
    db.(requests := db.requests - {id})
  }

  /** handleLoginPost for an authorization request, on its own, is a run of the flow. */
  lemma LoginAlone(cfg: Settings, s: F.State, db: Db, h: nat, request: string, user: Option<(string, seq<string>)>,
                   allowed: bool, d: Draws, now: int)
    returns (actions: seq<F.Action>, t: F.State)
    requires Stored(db, s) && h !in s.procs && F.Fresh(s, d.code) && request != ""
    ensures Leads(cfg.flow, s, actions, t)
    ensures Matches(s, d.code, LoggedIn(cfg, s.clients, db, request, user, allowed, d, now), t)
  {
    hide Leads, F.Fresh, Proceeded, F.Step;
    if request !in s.requests {
      actions, t := [], s;
      Nowhere(cfg.flow, s);
      assert db.requests - {request} == db.requests;
    } else {
      var ar, b := s.requests[request], s.(requests := s.requests - {request});
      var session := if user.Some? then S.Opened(cfg.life, user.value.0, true, user.value.1, d.csrf, now)
                     else S.Opened(cfg.life, "", true, [], "", now);
      actions := TakeForLogin(cfg, s, h, request);
      actions := LoginAnswer(cfg, s, actions, b, h, ar, if user.Some? then Some(LoginOf(session)) else None, now);
      t := b;
      if !(now > ar.expiresAt) {
        if user.None? {
          actions, t := PutBack(cfg.flow, s, actions, b, h, ar);
        } else {
          FreshStill(s, b, d.code);
          var db2 := Taking(db, request).(sessions := db.sessions[d.sid := session]);
          actions, t := ProceedAlone(cfg, s, actions, b, h, ar, session, allowed, d.code, now, db2);
        }
      }
    }
  }

  // ---- Consent ----

  // The user approves
  lemma ApproveAlone(cfg: Settings, s: F.State, sofar: seq<F.Action>, b: F.State, h: nat, ar: AuthRequest,
                     session: Session,
                     code: string, now: int, db: Db)
    returns (actions: seq<F.Action>, t: F.State)
    requires h !in b.procs && F.Fresh(b, code) && Stored(db, b) && !(now > ar.expiresAt)
    requires Leads(cfg.flow, s, sofar, F.Goto(b, h, F.Confirming(ar, LoginOf(session))))
    ensures Leads(cfg.flow, s, actions, t)
    ensures Matches(b, code,
                    if session.userID == "" || ar.clientID == "" then (db, Failed(StoreError))
                    else CodeIssued(cfg, db.(consents := ConsentRecorded(db.consents, session.userID, ar)), ar, session,
                                    code, now), t)
  {
    hide Leads, F.Fresh, RequestedScopes, ConsentKey, MergeScopes, CodeIssued, F.Step, F.ApprovalsOf;
    var login := LoginOf(session);
    SayYes(cfg.flow, s, sofar, b, h, ar, login, now);
    var b1 := WithApprovals(b, ar, login);
    actions := sofar + [F.Approve(h, now)];
    Merge(cfg.flow, s, actions, b1, h, ar, login);
    actions := actions + [F.ReadExisting(h)];
    Record(cfg.flow, s, actions, b1, h, ar, login, Merged(b1, ar, login));
    actions, t := actions + [F.RecordConsent(h)], b1;
    if login.userID != "" && ar.clientID != "" {
      var b2 := b1.(consents := ConsentRecorded(db.consents, session.userID, ar));
      FreshStill(b, b2, code);
      actions, t := Issue(cfg, s, actions, b2, h, ar, session, true, code, now, db.(consents := b2.consents));
    }
  }

  predicate Hears(v: S.Answer, csrf: string, rid: string) {
    v.found.Some? && csrf != "" && csrf == v.found.value.csrfToken && rid != ""
  }

  // What handleConsentPost does, by how far it gets
  lemma Decisions(cfg: Settings, db: Db, cookie: string, csrf: string, request: string, approve: bool, d: Draws,
                  now: int)
    ensures var v, rid, r := S.Validated(db.sessions, cookie, d.csrf, now), TrimSpace(request),
                             Decided(cfg, db, cookie, csrf, request, approve, d, now);
      if !Hears(v, csrf, rid) then r.1.Failed? && r.0 == db.(sessions := v.sessions)
      else
        var db2 := db.(sessions := v.sessions, requests := db.requests - {rid});
        if rid !in db.requests || now > db.requests[rid].expiresAt || !approve then r.1.Failed? && r.0 == db2
        else
          var s, ar := v.found.value, db.requests[rid];
          r == if s.userID == "" || ar.clientID == "" then (db2, Failed(StoreError))
               else CodeIssued(cfg, db2.(consents := ConsentRecorded(db2.consents, s.userID, ar)), ar, s, d.code, now)
  {
    hide CodeIssued, S.Validated, TrimSpace, ConsentRecorded;
  }

  lemma DecideHeard(cfg: Settings, s: F.State, db: Db, h: nat, rid: string, session: Session, approve: bool,
                    code: string, now: int)
    returns (actions: seq<F.Action>, t: F.State)
    requires Stored(db.(requests := s.requests), s) && db.requests == s.requests - {rid}
    requires h !in s.procs && F.Fresh(s, code) && rid in s.requests
    ensures Leads(cfg.flow, s, actions, t)
    ensures var ar := s.requests[rid];
      Matches(s, code,
              if now > ar.expiresAt || !approve then (db, Failed(AccessDenied))
              else if session.userID == "" || ar.clientID == "" then (db, Failed(StoreError))
              else CodeIssued(cfg, db.(consents := ConsentRecorded(db.consents, session.userID, ar)), ar, session, code,
                              now), t)
  {
    hide Leads, F.Fresh, CodeIssued, F.Step, ConsentRecorded;
    var ar, b := s.requests[rid], s.(requests := s.requests - {rid});
    Nowhere(cfg.flow, s);
    TakeForConsent(cfg.flow, s, [], s, h, rid, LoginOf(session));
    actions := [] + [F.ConsumeForConsent(h, LoginOf(session), rid)];
    t := b;
    if now > ar.expiresAt || !approve {
      actions := GiveUp(cfg.flow, s, actions, b, h, F.Confirming(ar, LoginOf(session)));
    } else {
      FreshStill(s, b, code);
      actions, t := ApproveAlone(cfg, s, actions, b, h, ar, session, code, now, db);
    }
  }

  /** handleConsentPost on its own is a run of the flow. */
  lemma DecideAlone(cfg: Settings, s: F.State, db: Db, h: nat, cookie: string, csrf: string, request: string,
                    approve: bool,
                    d: Draws, now: int)
    returns (actions: seq<F.Action>, t: F.State)
    requires Stored(db, s) && h !in s.procs && F.Fresh(s, d.code)
    ensures Leads(cfg.flow, s, actions, t)
    ensures Matches(s, d.code, Decided(cfg, db, cookie, csrf, request, approve, d, now), t)
  {
    hide Leads, F.Fresh, CodeIssued, F.Step, S.Validated, TrimSpace, ConsentRecorded, Decided;
    var v, rid := S.Validated(db.sessions, cookie, d.csrf, now), TrimSpace(request);
    Decisions(cfg, db, cookie, csrf, request, approve, d, now);
    if Hears(v, csrf, rid) && rid in s.requests {
      actions, t := DecideHeard(cfg, s, db.(sessions := v.sessions, requests := db.requests - {rid}), h, rid,
                                v.found.value,
                                approve, d.code, now);
    } else {
      actions, t := [], s;
      Nowhere(cfg.flow, s);
      assert rid !in db.requests ==> db.requests - {rid} == db.requests;
    }
  }

  // ---- Redemption ----

  // The code bucket and the grants on record after a redemption
  ghost predicate Redeems(s: F.State, client: Client, r: (Db, Response), t: F.State) {
    && r.0.codes == t.codes && t.requests == s.requests && t.consents == s.consents && t.procs == s.procs
    && (if r.1.Granted? then
          && |t.past.grants| == |s.past.grants| + 1
          && var g := t.past.grants[|s.past.grants|];
             && g.client == client && g.code.userID == r.1.userID && g.code.scope == r.1.scope
             && g.code.nonce == r.1.nonce
             && g.code.authTime == r.1.authTime && g.code.amr == r.1.amr && g.refresh == r.1.refreshToken.Some?
        else t.past.grants == s.past.grants)
  }

  lemma Present(cfg: Settings, s: F.State, h: nat, client: Client, code: string, redirectURI: string, verifier: string)
    returns (actions: seq<F.Action>, b: F.State, t: F.State)
    requires h !in s.procs && client.id in s.clients && s.clients[client.id] == client
    ensures Leads(cfg.flow, s, actions, t) && h !in b.procs
    ensures b.codes == s.codes - {Digest(code)} && b.requests == s.requests && b.consents == s.consents
    ensures b.procs == s.procs && b.past.grants == s.past.grants
    ensures var key := Digest(code);
      t == if key in s.codes then F.Goto(b, h, F.Redeeming(client, redirectURI, verifier, key, s.codes[key])) else b
  {
    hide Leads, AuthorizationScope;
    var key, a := Digest(code), F.Redeem(h, client, code, redirectURI, verifier);
    Nowhere(cfg.flow, s);
    Advance(cfg.flow, s, [], s, a);
    actions, t := [] + [a], F.Step(cfg.flow, s, a);
    b := s.(codes := s.codes - {key}, past := t.past);
    assert key !in s.codes ==> s.codes - {key} == s.codes;
  }

  lemma Inspect(cfg: Settings, s: F.State, sofar: seq<F.Action>, b: F.State, h: nat, p: F.Proc, now: int)
    returns (t: F.State)
    requires h !in b.procs && p.Redeeming? && Leads(cfg.flow, s, sofar, F.Goto(b, h, p))
    ensures Leads(cfg.flow, s, sofar + [F.CheckCode(h, now)], t)
    ensures t == if !F.CodeRedeemable(cfg.flow, p.code, p.client.id, p.redirectURI, p.verifier, now) then b
                 else b.(past := b.past.(grants := b.past.grants
                      + [F.Grant(p.key, p.client, p.redirectURI, p.verifier, p.code,
                                 p.client.allowOffline && OFFLINE_ACCESS in Scopes.Tokens(p.code.scope))]))
  {
    hide Leads, AuthorizationScope, F.CodeRedeemable, Scopes.Tokens;
    Advance(cfg.flow, s, sofar, F.Goto(b, h, p), F.CheckCode(h, now));
    Regoto(b, h, p, p);
    t := F.Step(cfg.flow, F.Goto(b, h, p), F.CheckCode(h, now));
  }

  // What tokenAuthorizationCode does, by whether the code passes
  lemma Redemptions(cfg: Settings, db: Db, client: Client, code: string, redirectURI: string, verifier: string,
                    d: Draws, now: int)
    ensures var r, key := Redeemed(cfg, db, client, code, redirectURI, verifier, d, now), Digest(code);
      && r.0.codes == db.codes - {key}
      && (r.1.Granted? <==>
            key in db.codes && F.CodeRedeemable(cfg.flow, db.codes[key], client.id, redirectURI, verifier, now))
      && (r.1.Granted? ==>
            var c := db.codes[key];
            && r.1.userID == c.userID && r.1.scope == c.scope && r.1.nonce == c.nonce && r.1.authTime == c.authTime
            && r.1.amr == c.amr
            && r.1.refreshToken.Some? == (client.allowOffline && OFFLINE_ACCESS in Scopes.Tokens(c.scope)))
  {
    hide F.CodeRedeemable, Scopes.Tokens;
  }

  /** tokenAuthorizationCode on its own is a run of the flow. */
  lemma RedeemAlone(cfg: Settings, s: F.State, db: Db, h: nat, client: Client, code: string, redirectURI: string,
                    verifier: string, d: Draws, now: int)
    returns (actions: seq<F.Action>, t: F.State)
    requires Stored(db, s) && h !in s.procs && client.id in s.clients && s.clients[client.id] == client
    ensures Leads(cfg.flow, s, actions, t)
    ensures Redeems(s, client, Redeemed(cfg, db, client, code, redirectURI, verifier, d, now), t)
  {
    hide Leads, F.CodeRedeemable, Scopes.Tokens, F.Step, Redeemed;
    Redemptions(cfg, db, client, code, redirectURI, verifier, d, now);
    var b;
    actions, b, t := Present(cfg, s, h, client, code, redirectURI, verifier);
    if Digest(code) in s.codes {
      t := Inspect(cfg, s, actions, b, h,
                   F.Redeeming(client, redirectURI, verifier, Digest(code), s.codes[Digest(code)]), now);
      actions := actions + [F.CheckCode(h, now)];
    }
  }

  // ---- Authorize ----

  lemma Accept(cfg: Settings, s: F.State, h: nat, q: Query, id: string, login: Option<F.Login>, now: int)
    returns (actions: seq<F.Action>)
    requires h !in s.procs && F.Fresh(s, id) && Requested(cfg, s.clients, q, id, now).Ok?
    ensures var ar := Requested(cfg, s.clients, q, id, now).value;
      && ar.id == id && q.clientID in s.clients
      && Leads(cfg.flow, s, actions, F.Goto(Remembered(s, ar, s.clients[q.clientID]), h,
                                            if login.Some? then F.Proceeding(ar, login.value) else F.Putting(ar)))
  {
    hide Leads, AuthorizationScope, F.PKCEAcceptable;
    var a := F.Authorize(h, q.clientID, q.redirectURI, q.scope, q.nonce, q.challenge, q.challengeMethod, login, id,
                         now);
    Nowhere(cfg.flow, s);
    Advance(cfg.flow, s, [], s, a);
    actions := [] + [a];
  }

  // How far handleAuthorize gets
  datatype Reach = Refused | Onward(ar: AuthRequest, session: Session) | Waiting(ar: AuthRequest)

  function Reaches(cfg: Settings, clients: map<string, Client>, db: Db, q: Query, cookie: string, allowed: bool,
                   d: Draws, now: int): Reach {
    var v, r := S.Validated(db.sessions, cookie, d.csrf, now), Requested(cfg, clients, q, d.id, now);
    if r.Err? || q.clientID !in clients then Refused
    else
      var verdict := Prompted(db.consents, q, r.value.scope, clients[q.clientID], v.found, now);
      if verdict.Refuse? then Refused
      else if v.found.Some? && !verdict.forceLogin then Onward(r.value, v.found.value)
      else if allowed then Waiting(r.value) else Refused
  }

  lemma Answers(cfg: Settings, clients: map<string, Client>, db: Db, q: Query, cookie: string, allowed: bool, d: Draws,
                now: int)
    ensures var r := Authorized(cfg, clients, db, q, cookie, allowed, d, now);
      match Reaches(cfg, clients, db, q, cookie, allowed, d, now)
      case Refused => r.1.Failed? && r.0.requests == db.requests && r.0.codes == db.codes && r.0.consents == db.consents
      case Waiting(ar) =>
        r.1.GoLogin? && r.0.requests == db.requests[d.id := ar] && r.0.codes == db.codes && r.0.consents == db.consents
      case Onward(ar, session) =>
        var v := S.Validated(db.sessions, cookie, d.csrf, now);
        r == Proceeded(cfg, clients, db.(sessions := S.Touched(cfg.life, v.sessions, cookie, d.csrf, now).sessions), ar,
                       session,
                       allowed, d.code, now)
  {
    hide AuthorizationScope, F.PKCEAcceptable, Prompted, S.Validated, S.Touched, Proceeded;
  }

  /** handleAuthorize on its own is a run of the flow. */
  lemma AuthorizeAlone(cfg: Settings, s: F.State, db: Db, h: nat, q: Query, cookie: string, allowed: bool, d: Draws,
                       now: int)
    returns (actions: seq<F.Action>, t: F.State)
    requires Stored(db, s) && h !in s.procs && F.Fresh(s, d.id) && F.Fresh(s, d.code) && d.id != d.code
    ensures Leads(cfg.flow, s, actions, t)
    ensures Matches(s, d.code, Authorized(cfg, s.clients, db, q, cookie, allowed, d, now), t)
  {
    hide Leads, Requested, Prompted, S.Validated, S.Touched, Proceeded, F.Step, Base64Url, Authorized;
    Answers(cfg, s.clients, db, q, cookie, allowed, d, now);
    match Reaches(cfg, s.clients, db, q, cookie, allowed, d, now)
    case Refused =>
      actions, t := [], s;
      Nowhere(cfg.flow, s);
    case Waiting(ar) =>
      actions := Accept(cfg, s, h, q, d.id, None, now);
      actions, t := PutBack(cfg.flow, s, actions, Remembered(s, ar, s.clients[q.clientID]), h, ar);
    case Onward(ar, session) =>
      var v := S.Validated(db.sessions, cookie, d.csrf, now);
      actions := Accept(cfg, s, h, q, d.id, Some(LoginOf(session)), now);
      actions, t := ProceedAlone(cfg, s, actions, Remembered(s, ar, s.clients[q.clientID]), h, ar, session, allowed,
                                 d.code, now,
                                 db.(sessions := S.Touched(cfg.life, v.sessions, cookie, d.csrf, now).sessions));
  }
}
