/** The sweeper is unobservable: whatever calls are made, the broker answers the same with and without sweeps. */
module SweepTransparency {
  import opened Entities
  import opened Transactions
  import opened Sessions
  import opened Handlers
  import opened Runs
  import Scopes
  import Flow = AuthorizationFlow

  // Everything live in one bucket is in the other, unchanged
  ghost predicate Within<K(!new), V>(a: map<K, V>, b: map<K, V>, expiry: V -> int, now: int) {
    forall k :: k in a && !(now > expiry(a[k])) ==> k in b && b[k] == a[k]
  }

  ghost predicate Alike<K(!new), V>(a: map<K, V>, b: map<K, V>, expiry: V -> int, now: int) {
    Within(a, b, expiry, now) && Within(b, a, expiry, now)
  }

  lemma AlikeLater<K(!new), V>(a: map<K, V>, b: map<K, V>, expiry: V -> int, now: int, later: int)
    requires Alike(a, b, expiry, now) && now <= later
    ensures Alike(a, b, expiry, later)
  {
  }

  lemma AlikeSwept<K(!new), V>(a: map<K, V>, b: map<K, V>, expiry: V -> int, now: int, reading: int)
    requires Alike(a, b, expiry, now) && reading <= now
    ensures Alike(Swept(a, expiry, reading), b, expiry, now)
  {
  }

  lemma AlikePut<K(!new), V>(a: map<K, V>, b: map<K, V>, expiry: V -> int, now: int, k: K, v: V)
    requires Alike(a, b, expiry, now)
    ensures Alike(a[k := v], b[k := v], expiry, now)
  {
  }

  lemma AlikeTaken<K(!new), V>(a: map<K, V>, b: map<K, V>, expiry: V -> int, now: int, k: K)
    requires Alike(a, b, expiry, now)
    ensures Alike(a - {k}, b - {k}, expiry, now)
  {
  }

  // What both sides see of a key: the same live record, or nothing live
  lemma SeenAlike<K(!new), V>(a: map<K, V>, b: map<K, V>, expiry: V -> int, now: int, k: K)
    requires Alike(a, b, expiry, now)
    ensures (k in a && !(now > expiry(a[k]))) <==> (k in b && !(now > expiry(b[k])))
    ensures k in a && !(now > expiry(a[k])) ==> a[k] == b[k]
  {
  }

  ghost predicate Same(x: Db, y: Db, now: int) {
    && Alike(x.sessions, y.sessions, SessionExpiry, now)
    && Alike(x.requests, y.requests, RequestExpiry, now)
    && Alike(x.codes, y.codes, CodeExpiry, now)
    && Alike(x.refresh, y.refresh, RefreshExpiry, now)
    && Alike(x.consumed, y.consumed, TombstoneExpiry, now)
    && Alike(x.revoked, y.revoked, JtiExpiry, now)
    && x.consents == y.consents
  }

  lemma SameSwept(x: Db, y: Db, now: int, reading: int)
    requires Same(x, y, now) && reading <= now
    ensures Same(SweptDb(x, reading), y, now)
  {
    hide Alike, Swept;
    AlikeSwept(x.sessions, y.sessions, SessionExpiry, now, reading);
    AlikeSwept(x.requests, y.requests, RequestExpiry, now, reading);
    AlikeSwept(x.codes, y.codes, CodeExpiry, now, reading);
    AlikeSwept(x.refresh, y.refresh, RefreshExpiry, now, reading);
    AlikeSwept(x.consumed, y.consumed, TombstoneExpiry, now, reading);
    AlikeSwept(x.revoked, y.revoked, JtiExpiry, now, reading);
  }

  lemma SameLater(x: Db, y: Db, now: int, later: int)
    requires Same(x, y, now) && now <= later
    ensures Same(x, y, later)
  {
    hide Alike;
    AlikeLater(x.sessions, y.sessions, SessionExpiry, now, later);
    AlikeLater(x.requests, y.requests, RequestExpiry, now, later);
    AlikeLater(x.codes, y.codes, CodeExpiry, now, later);
    AlikeLater(x.refresh, y.refresh, RefreshExpiry, now, later);
    AlikeLater(x.consumed, y.consumed, TombstoneExpiry, now, later);
    AlikeLater(x.revoked, y.revoked, JtiExpiry, now, later);
  }

  // ---- Sessions ----

  lemma ValidatedAlike(x: Bucket, y: Bucket, sid: string, csrf: string, now: int)
    requires Alike(x, y, SessionExpiry, now)
    ensures Validated(x, sid, csrf, now).found == Validated(y, sid, csrf, now).found
    ensures Alike(Validated(x, sid, csrf, now).sessions, Validated(y, sid, csrf, now).sessions, SessionExpiry, now)
    ensures Validated(x, sid, csrf, now).found.Some? ==>
              && sid != "" && sid in Validated(x, sid, csrf, now).sessions
              && sid in Validated(y, sid, csrf, now).sessions
              && Validated(x, sid, csrf, now).sessions[sid] == Validated(y, sid, csrf, now).sessions[sid]
  {
    SeenAlike(x, y, SessionExpiry, now, sid);
  }

  lemma TouchedAlike(life: Lifetime, x: Bucket, y: Bucket, sid: string, csrf: string, now: int)
    requires Alike(x, y, SessionExpiry, now)
    ensures Touched(life, x, sid, csrf, now).found == Touched(life, y, sid, csrf, now).found
    ensures Alike(Touched(life, x, sid, csrf, now).sessions, Touched(life, y, sid, csrf, now).sessions, SessionExpiry,
                  now)
  {
    hide Alike, Validated;
    ValidatedAlike(x, y, sid, csrf, now);
    var a, b := Validated(x, sid, csrf, now), Validated(y, sid, csrf, now);
    if a.found.Some? {
      AlikePut(a.sessions, b.sessions, SessionExpiry, now, sid,
               a.found.value.(expiresAt := NewExpiry(life, a.found.value, now)));
    }
  }

  lemma ReAuthenticatedAlike(x: Bucket, y: Bucket, sid: string, now: int)
    requires Alike(x, y, SessionExpiry, now) && sid in x && sid in y && x[sid] == y[sid]
    ensures Alike(ReAuthenticated(x, sid, now), ReAuthenticated(y, sid, now), SessionExpiry, now)
  {
    hide Alike;
    AlikePut(x, y, SessionExpiry, now, sid, x[sid].(reAuthAt := Some(now)));
  }

  // ---- The same write to like stores ----

  lemma SameValidated(x: Db, y: Db, cookie: string, csrf: string, now: int)
    requires Same(x, y, now)
    ensures var v, w := Validated(x.sessions, cookie, csrf, now), Validated(y.sessions, cookie, csrf, now);
      && v.found == w.found && Same(x.(sessions := v.sessions), y.(sessions := w.sessions), now)
      && (v.found.Some? ==> cookie in v.sessions && cookie in w.sessions && v.sessions[cookie] == w.sessions[cookie])
  {
    hide Alike, Validated;
    ValidatedAlike(x.sessions, y.sessions, cookie, csrf, now);
  }

  lemma SameTouched(life: Lifetime, x: Db, y: Db, cookie: string, csrf: string, now: int)
    requires Same(x, y, now)
    ensures var v, w := Touched(life, x.sessions, cookie, csrf, now), Touched(life, y.sessions, cookie, csrf, now);
      v.found == w.found && Same(x.(sessions := v.sessions), y.(sessions := w.sessions), now)
  {
    hide Alike, Touched;
    TouchedAlike(life, x.sessions, y.sessions, cookie, csrf, now);
  }

  lemma SameReAuthenticated(x: Db, y: Db, cookie: string, now: int)
    requires Same(x, y, now) && cookie in x.sessions && cookie in y.sessions && x.sessions[cookie] == y.sessions[cookie]
    ensures Same(x.(sessions := ReAuthenticated(x.sessions, cookie, now)),
                 y.(sessions := ReAuthenticated(y.sessions, cookie, now)), now)
  {
    hide Alike, ReAuthenticated;
    ReAuthenticatedAlike(x.sessions, y.sessions, cookie, now);
  }

  lemma SameSessions(x: Db, y: Db, now: int, sid: string, s: Session)
    requires Same(x, y, now)
    ensures Same(x.(sessions := x.sessions[sid := s]), y.(sessions := y.sessions[sid := s]), now)
  {
    hide Alike;
    AlikePut(x.sessions, y.sessions, SessionExpiry, now, sid, s);
  }

  lemma SessionDropped(x: Db, y: Db, now: int, sid: string)
    requires Same(x, y, now)
    ensures Same(x.(sessions := x.sessions - {sid}), y.(sessions := y.sessions - {sid}), now)
  {
    hide Alike;
    AlikeTaken(x.sessions, y.sessions, SessionExpiry, now, sid);
  }

  lemma SameRequests(x: Db, y: Db, now: int, id: string, ar: AuthRequest)
    requires Same(x, y, now)
    ensures Same(x.(requests := x.requests[id := ar]), y.(requests := y.requests[id := ar]), now)
  {
    hide Alike;
    AlikePut(x.requests, y.requests, RequestExpiry, now, id, ar);
  }

  // A request that is there and not expired is seen by both
  lemma RequestSeen(x: Db, y: Db, now: int, id: string)
    requires Same(x, y, now)
    ensures (id in x.requests && !(now > x.requests[id].expiresAt)) <==>
        (id in y.requests && !(now > y.requests[id].expiresAt))
    ensures id in x.requests && !(now > x.requests[id].expiresAt) ==> x.requests[id] == y.requests[id]
  {
    hide Alike;
    SeenAlike(x.requests, y.requests, RequestExpiry, now, id);
  }

  lemma SameCodes(x: Db, y: Db, now: int, key: Digest, ac: AuthCode)
    requires Same(x, y, now)
    ensures Same(x.(codes := x.codes[key := ac]), y.(codes := y.codes[key := ac]), now)
  {
    hide Alike;
    AlikePut(x.codes, y.codes, CodeExpiry, now, key, ac);
  }

  lemma CodeSeen(x: Db, y: Db, now: int, key: Digest)
    requires Same(x, y, now)
    ensures (key in x.codes && !(now > x.codes[key].expiresAt)) <==> (key in y.codes && !(now > y.codes[key].expiresAt))
    ensures key in x.codes && !(now > x.codes[key].expiresAt) ==> x.codes[key] == y.codes[key]
  {
    hide Alike;
    SeenAlike(x.codes, y.codes, CodeExpiry, now, key);
  }

  lemma SameRefresh(x: Db, y: Db, now: int, key: Digest, token: RefreshToken)
    requires Same(x, y, now)
    ensures Same(x.(refresh := x.refresh[key := token]), y.(refresh := y.refresh[key := token]), now)
  {
    hide Alike;
    AlikePut(x.refresh, y.refresh, RefreshExpiry, now, key, token);
  }

  lemma RefreshSeen(x: Db, y: Db, now: int, key: Digest)
    requires Same(x, y, now)
    ensures (key in x.refresh && !(now > x.refresh[key].expiresAt)) <==>
        (key in y.refresh && !(now > y.refresh[key].expiresAt))
    ensures key in x.refresh && !(now > x.refresh[key].expiresAt) ==> x.refresh[key] == y.refresh[key]
    ensures (key in x.consumed && !(now > x.consumed[key].expiresAt)) <==>
        (key in y.consumed && !(now > y.consumed[key].expiresAt))
    ensures key in x.consumed && !(now > x.consumed[key].expiresAt) ==> x.consumed[key] == y.consumed[key]
  {
    hide Alike;
    SeenAlike(x.refresh, y.refresh, RefreshExpiry, now, key);
    SeenAlike(x.consumed, y.consumed, TombstoneExpiry, now, key);
  }

  // ---- Each handler answers alike and leaves like stores behind ----

  ghost predicate Agree(x: (Db, Response), y: (Db, Response), now: int) {
    x.1 == y.1 && Same(x.0, y.0, now)
  }

  lemma CodeIssuedAgrees(cfg: Settings, x: Db, y: Db, ar: AuthRequest, s: Session, code: string, now: int)
    requires Same(x, y, now)
    ensures Agree(CodeIssued(cfg, x, ar, s, code, now), CodeIssued(cfg, y, ar, s, code, now), now)
  {
    hide Same;
    var ac := Flow.CodeFor(ar, Flow.Login(s.userID, s.authTime, s.amr), now + cfg.flow.codeTTL);
    SameCodes(x, y, now, Digest(code), ac);
  }

  lemma ProceededAgrees(cfg: Settings, clients: map<string, Client>, x: Db, y: Db, ar: AuthRequest, s: Session,
                        allowed: bool, code: string, now: int)
    requires Same(x, y, now)
    ensures Agree(Proceeded(cfg, clients, x, ar, s, allowed, code, now),
                  Proceeded(cfg, clients, y, ar, s, allowed, code, now), now)
  {
    hide CodeIssued, ConsentGiven, Same;
    assert x.consents == y.consents by { SameConsents(x, y, now); }
    CodeIssuedAgrees(cfg, x, y, ar, s, code, now);
    SameRequests(x, y, now, ar.id, ar.(expiresAt := now + Flow.CONSENT_EXPIRY));
  }

  lemma SameConsents(x: Db, y: Db, now: int)
    requires Same(x, y, now)
    ensures x.consents == y.consents
    ensures forall consents :: Same(x.(consents := consents), y.(consents := consents), now)
  {
  }

  lemma AuthorizedAgrees(cfg: Settings, clients: map<string, Client>, x: Db, y: Db, q: Query, cookie: string,
                         allowed: bool, d: Draws, now: int)
    requires Same(x, y, now)
    ensures Agree(Authorized(cfg, clients, x, q, cookie, allowed, d, now),
                  Authorized(cfg, clients, y, q, cookie, allowed, d, now), now)
  {
    hide Proceeded, Requested, Prompted, Validated, Touched, Same;
    assert x.consents == y.consents by { SameConsents(x, y, now); }
    SameValidated(x, y, cookie, d.csrf, now);
    var v, w := Validated(x.sessions, cookie, d.csrf, now), Validated(y.sessions, cookie, d.csrf, now);
    var x1, y1 := x.(sessions := v.sessions), y.(sessions := w.sessions);
    SameTouched(cfg.life, x1, y1, cookie, d.csrf, now);
    var ar := Requested(cfg, clients, q, d.id, now);
    if ar.Ok? {
      SameRequests(x1, y1, now, d.id, ar.value);
      if v.found.Some? {
        ProceededAgrees(cfg, clients, x1.(sessions := Touched(cfg.life, x1.sessions, cookie, d.csrf, now).sessions),
                        y1.(sessions := Touched(cfg.life, y1.sessions, cookie, d.csrf, now).sessions),
                        ar.value, v.found.value, allowed, d.code, now);
      }
    }
  }

  lemma LoginShownAgrees(x: Db, y: Db, request: string, allowed: bool, now: int)
    requires Same(x, y, now)
    ensures LoginShown(x, request, allowed, now) == LoginShown(y, request, allowed, now)
  {
    hide Same;
    RequestSeen(x, y, now, request);
  }

  lemma LoggedInAgrees(cfg: Settings, clients: map<string, Client>, x: Db, y: Db, request: string,
                       user: Option<(string, seq<string>)>, allowed: bool, d: Draws, now: int)
    requires Same(x, y, now)
    ensures Agree(LoggedIn(cfg, clients, x, request, user, allowed, d, now),
                  LoggedIn(cfg, clients, y, request, user, allowed, d, now), now)
  {
    hide Same, Proceeded, Opened;
    var x1, y1 := x, y;
    if request != "" {
      RequestSeen(x, y, now, request);
      RequestTaken(x, y, now, request);
      x1, y1 := x.(requests := x.requests - {request}), y.(requests := y.requests - {request});
      if request in x.requests {
        SameRequests(x1, y1, now, x.requests[request].id, x.requests[request]);
      }
    }
    if user.Some? {
      var s := Opened(cfg.life, user.value.0, true, user.value.1, d.csrf, now);
      SameSessions(x1, y1, now, d.sid, s);
      if request in x.requests {
        ProceededAgrees(cfg, clients, x1.(sessions := x1.sessions[d.sid := s]),
                        y1.(sessions := y1.sessions[d.sid := s]),
                        x.requests[request], s, allowed, d.code, now);
      }
    }
  }

  lemma RequestTaken(x: Db, y: Db, now: int, id: string)
    requires Same(x, y, now)
    ensures Same(x.(requests := x.requests - {id}), y.(requests := y.requests - {id}), now)
  {
    hide Alike;
    AlikeTaken(x.requests, y.requests, RequestExpiry, now, id);
  }

  lemma ConsentShownAgrees(clients: map<string, Client>, x: Db, y: Db, cookie: string, request: string, d: Draws,
                           now: int)
    requires Same(x, y, now)
    ensures Agree(ConsentShown(clients, x, cookie, request, d, now), ConsentShown(clients, y, cookie, request, d, now),
                  now)
  {
    hide Same, Validated, Scopes.TrimSpace;
    SameValidated(x, y, cookie, d.csrf, now);
    RequestSeen(x, y, now, Scopes.TrimSpace(request));
  }

  lemma DecidedAgrees(cfg: Settings, x: Db, y: Db, cookie: string, csrf: string, request: string, approve: bool,
                      d: Draws, now: int)
    requires Same(x, y, now)
    ensures Agree(Decided(cfg, x, cookie, csrf, request, approve, d, now),
                  Decided(cfg, y, cookie, csrf, request, approve, d, now), now)
  {
    hide Same, Validated, Scopes.TrimSpace, CodeIssued, ConsentRecorded;
    SameValidated(x, y, cookie, d.csrf, now);
    var rid := Scopes.TrimSpace(request);
    RequestSeen(x, y, now, rid);
    var v, w := Validated(x.sessions, cookie, d.csrf, now), Validated(y.sessions, cookie, d.csrf, now);
    var x1, y1 := x.(sessions := v.sessions), y.(sessions := w.sessions);
    RequestTaken(x1, y1, now, rid);
    var x2, y2 := x1.(requests := x1.requests - {rid}), y1.(requests := y1.requests - {rid});
    SameConsents(x2, y2, now);
    if v.found.Some? && rid in x.requests {
      var s, ar := v.found.value, x.requests[rid];
      var consents := ConsentRecorded(x.consents, s.userID, ar);
      CodeIssuedAgrees(cfg, x2.(consents := consents), y2.(consents := consents), ar, s, d.code, now);
    }
  }

  lemma ReAuthedAgrees(x: Db, y: Db, cookie: string, csrf: string, passwordOk: bool, d: Draws, now: int)
    requires Same(x, y, now)
    ensures Agree(ReAuthed(x, cookie, csrf, passwordOk, d, now), ReAuthed(y, cookie, csrf, passwordOk, d, now), now)
  {
    hide Validated, ReAuthenticated, Same;
    var v, w := Validated(x.sessions, cookie, d.csrf, now), Validated(y.sessions, cookie, d.csrf, now);
    SameValidated(x, y, cookie, d.csrf, now);
    if v.found.Some? {
      SameReAuthenticated(x.(sessions := v.sessions), y.(sessions := w.sessions), cookie, now);
    }
  }

  lemma LoggedOutAgrees(x: Db, y: Db, cookie: string, csrf: string, d: Draws, now: int)
    requires Same(x, y, now)
    ensures Agree(LoggedOut(x, cookie, csrf, d, now), LoggedOut(y, cookie, csrf, d, now), now)
  {
    hide Validated, Same;
    var v, w := Validated(x.sessions, cookie, d.csrf, now), Validated(y.sessions, cookie, d.csrf, now);
    SameValidated(x, y, cookie, d.csrf, now);
    SessionDropped(x.(sessions := v.sessions), y.(sessions := w.sessions), now, cookie);
  }

  lemma RedeemedAgrees(cfg: Settings, x: Db, y: Db, client: Client, code: string, redirectURI: string, verifier: string,
                       d: Draws, now: int)
    requires Same(x, y, now)
    ensures Agree(Redeemed(cfg, x, client, code, redirectURI, verifier, d, now),
                  Redeemed(cfg, y, client, code, redirectURI, verifier, d, now), now)
  {
    hide Same, Flow.VerifyPKCE, Scopes.Tokens;
    var key := Digest(code);
    CodeSeen(x, y, now, key);
    var x1, y1 := x.(codes := x.codes - {key}), y.(codes := y.codes - {key});
    assert Same(x1, y1, now) by { CodeBurned(x, y, now, key); }
    if key in x.codes {
      var c := x.codes[key];
      var token := RefreshToken(c.userID, client.id, c.scope, c.authTime, now + cfg.refreshTTL, c.amr, d.family, 0);
      SameRefresh(x1, y1, now, Digest(d.secret), token);
    }
  }

  lemma CodeBurned(x: Db, y: Db, now: int, key: Digest)
    requires Same(x, y, now)
    ensures Same(x.(codes := x.codes - {key}), y.(codes := y.codes - {key}), now)
  {
    hide Alike;
    AlikeTaken(x.codes, y.codes, CodeExpiry, now, key);
  }

  lemma FamilyAlike(x: map<Digest, RefreshToken>, y: map<Digest, RefreshToken>, family: string, now: int)
    requires Alike(x, y, RefreshExpiry, now)
    ensures Alike(WithoutFamily(x, family), WithoutFamily(y, family), RefreshExpiry, now)
  {
  }

  // Dropping an expired record makes no difference
  lemma AlikeExpired<K(!new), V>(a: map<K, V>, b: map<K, V>, expiry: V -> int, now: int, k: K)
    requires Alike(a, b, expiry, now) && (k in a ==> now > expiry(a[k]))
    ensures Alike(a - {k}, b, expiry, now)
  {
  }

  lemma AlikeSym<K(!new), V>(a: map<K, V>, b: map<K, V>, expiry: V -> int, now: int)
    requires Alike(a, b, expiry, now)
    ensures Alike(b, a, expiry, now)
  {
  }

  lemma RefreshedAgrees(cfg: Settings, x: Db, y: Db, client: Client, token: string, scope: string, d: Draws, now: int)
    requires Same(x, y, now)
    ensures Agree(Refreshed(cfg, x, client, token, scope, d, now), Refreshed(cfg, y, client, token, scope, d, now), now)
  {
    hide Same, Scopes.TrimSpace, Scopes.Tokens, WithoutFamily, NewRotation, WithRotation;
    var key := Digest(token);
    RefreshSeen(x, y, now, key);
    if key in x.consumed && !(now > x.consumed[key].expiresAt) {
      SameFamily(x, y, now, x.consumed[key].familyID);
    } else if key in x.refresh && !(now > x.refresh[key].expiresAt) {
      var prior, wanted := x.refresh[key], Scopes.TrimSpace(scope);
      var granted := if wanted == "" then prior.scope else wanted;
      SameRotation(x, y, now, key, NewRotation(prior, client.id, granted, d.secret, d.family, now, cfg.refreshTTL));
    } else {
      SameRefusal(x, y, now, key);
    }
  }

  lemma SameFamily(x: Db, y: Db, now: int, family: string)
    requires Same(x, y, now)
    ensures Same(x.(refresh := WithoutFamily(x.refresh, family)), y.(refresh := WithoutFamily(y.refresh, family)), now)
  {
    hide Alike, WithoutFamily;
    FamilyAlike(x.refresh, y.refresh, family, now);
  }

  lemma SameRotation(x: Db, y: Db, now: int, key: Digest, r: Rotation)
    requires Same(x, y, now)
    ensures Same(WithRotation(x, key, r), WithRotation(y, key, r), now)
  {
    hide Alike;
    AlikeTaken(x.refresh, y.refresh, RefreshExpiry, now, key);
    AlikePut(x.refresh - {key}, y.refresh - {key}, RefreshExpiry, now, r.key, r.next);
    AlikePut(x.consumed, y.consumed, TombstoneExpiry, now, key, r.tombstone);
  }

  // Both, either or neither side may burn the expired token
  lemma SameRefusal(x: Db, y: Db, now: int, key: Digest)
    requires Same(x, y, now)
    requires (key in x.refresh ==> now > x.refresh[key].expiresAt)
    requires (key in y.refresh ==> now > y.refresh[key].expiresAt)
    ensures Same(x.(refresh := x.refresh - {key}), y, now) && Same(x, y.(refresh := y.refresh - {key}), now)
    ensures Same(x.(refresh := x.refresh - {key}), y.(refresh := y.refresh - {key}), now)
  {
    hide Alike;
    AlikeTaken(x.refresh, y.refresh, RefreshExpiry, now, key);
    AlikeExpired(x.refresh, y.refresh, RefreshExpiry, now, key);
    AlikeSym(x.refresh, y.refresh, RefreshExpiry, now);
    AlikeExpired(y.refresh, x.refresh, RefreshExpiry, now, key);
    AlikeSym(y.refresh - {key}, x.refresh, RefreshExpiry, now);
  }

  lemma VerifiedAlike(cfg: Settings, x: map<string, int>, y: map<string, int>, token: string, now: int)
    requires Alike(x, y, JtiExpiry, now)
    ensures Verified(cfg, x, token, now).1 == Verified(cfg, y, token, now).1
    ensures Alike(Verified(cfg, x, token, now).0, Verified(cfg, y, token, now).0, JtiExpiry, now)
  {
  }

  lemma SameVerified(cfg: Settings, x: Db, y: Db, token: string, now: int)
    requires Same(x, y, now)
    ensures Verified(cfg, x.revoked, token, now).1 == Verified(cfg, y.revoked, token, now).1
    ensures Same(x.(revoked := Verified(cfg, x.revoked, token, now).0),
                 y.(revoked := Verified(cfg, y.revoked, token, now).0), now)
  {
    hide Alike, Verified;
    VerifiedAlike(cfg, x.revoked, y.revoked, token, now);
  }

  lemma JwtShownAgrees(cfg: Settings, x: Db, y: Db, token: string, clientID: string, now: int)
    requires Same(x, y, now)
    ensures Agree(JwtShown(cfg, x, token, clientID, now), JwtShown(cfg, y, token, clientID, now), now)
  {
    hide Same, Verified;
    SameVerified(cfg, x, y, token, now);
  }

  lemma RefreshShownAgrees(x: Db, y: Db, token: string, clientID: string, now: int)
    requires Same(x, y, now)
    ensures RefreshShown(x, token, clientID, now) == RefreshShown(y, token, clientID, now)
  {
    hide Alike;
    SeenAlike(x.refresh, y.refresh, RefreshExpiry, now, Digest(token));
  }

  lemma IntrospectedAgrees(cfg: Settings, x: Db, y: Db, token: string, hint: string, clientID: string, now: int)
    requires Same(x, y, now)
    ensures Agree(Introspected(cfg, x, token, hint, clientID, now), Introspected(cfg, y, token, hint, clientID, now),
                  now)
  {
    hide Alike, JwtShown, RefreshShown, Scopes.TrimSpace, Same;
    var tok := Scopes.TrimSpace(token);
    RefreshShownAgrees(x, y, tok, clientID, now);
    JwtShownAgrees(cfg, x, y, tok, clientID, now);
    RefreshShownAgrees(JwtShown(cfg, x, tok, clientID, now).0, JwtShown(cfg, y, tok, clientID, now).0, tok, clientID,
                       now);
  }

  lemma RefreshRevokedAlike(x: map<Digest, RefreshToken>, y: map<Digest, RefreshToken>, token: string, clientID: string,
                            now: int)
    requires Alike(x, y, RefreshExpiry, now)
    ensures Alike(RefreshRevoked(x, token, clientID), RefreshRevoked(y, token, clientID), RefreshExpiry, now)
  {
    SeenAlike(x, y, RefreshExpiry, now, Digest(token));
  }

  lemma JwtRevokedAlike(cfg: Settings, x: map<string, int>, y: map<string, int>, token: string, clientID: string,
                        now: int)
    requires Alike(x, y, JtiExpiry, now)
    ensures Alike(JwtRevoked(cfg, x, token, clientID, now), JwtRevoked(cfg, y, token, clientID, now), JtiExpiry, now)
  {
    hide Alike, Verified;
    VerifiedAlike(cfg, x, y, token, now);
    var claims := Verified(cfg, x, token, now).1;
    if claims.Some? && claims.value.exp.Some? {
      AlikePut(Verified(cfg, x, token, now).0, Verified(cfg, y, token, now).0, JtiExpiry, now, claims.value.jti,
               claims.value.exp.value * SECOND + SKEW);
    }
  }

  lemma RevokedAgrees(cfg: Settings, x: Db, y: Db, token: string, clientID: string, now: int)
    requires Same(x, y, now)
    ensures Same(Revoked(cfg, x, token, clientID, now), Revoked(cfg, y, token, clientID, now), now)
  {
    hide Alike, RefreshRevoked, JwtRevoked;
    RefreshRevokedAlike(x.refresh, y.refresh, token, clientID, now);
    JwtRevokedAlike(cfg, x.revoked, y.revoked, token, clientID, now);
  }

  lemma InfoShownAgrees(cfg: Settings, x: Db, y: Db, token: string, now: int)
    requires Same(x, y, now)
    ensures Agree(InfoShown(cfg, x, token, now), InfoShown(cfg, y, token, now), now)
  {
    hide Same, Verified;
    SameVerified(cfg, x, y, token, now);
  }

  lemma HandledAgrees(cfg: Settings, clients: map<string, Client>, x: Db, y: Db, call: Call, d: Draws, now: int)
    requires Same(x, y, now)
    ensures Agree(Handled(cfg, clients, x, call, d, now), Handled(cfg, clients, y, call, d, now), now)
  {
    hide Same, Authorized, LoginShown, LoggedIn, ConsentShown, Decided, Validated, Touched, ReAuthed, LoggedOut,
      Redeemed, Refreshed, Introspected, Revoked, InfoShown;
    match call
    case Authorize(q, cookie, allowed) => AuthorizedAgrees(cfg, clients, x, y, q, cookie, allowed, d, now);
    case LoginPage(request, allowed) => LoginShownAgrees(x, y, request, allowed, now);
    case Login(request, user, allowed) => LoggedInAgrees(cfg, clients, x, y, request, user, allowed, d, now);
    case ConsentPage(cookie, request) => ConsentShownAgrees(clients, x, y, cookie, request, d, now);
    case Decide(cookie, csrf, request, approve) => DecidedAgrees(cfg, x, y, cookie, csrf, request, approve, d, now);
    case Visit(cookie) => SameTouched(cfg.life, x, y, cookie, d.csrf, now);
    case Check(cookie) => SameValidated(x, y, cookie, d.csrf, now);
    case ReAuth(cookie, csrf, passwordOk) => ReAuthedAgrees(x, y, cookie, csrf, passwordOk, d, now);
    case Logout(cookie, csrf) => LoggedOutAgrees(x, y, cookie, csrf, d, now);
    case Redeem(client, code, redirectURI, verifier) =>
      RedeemedAgrees(cfg, x, y, client, code, redirectURI, verifier, d, now);
    case Refresh(client, token, scope) => RefreshedAgrees(cfg, x, y, client, token, scope, d, now);
    case Introspect(client, token, hint) => IntrospectedAgrees(cfg, x, y, token, hint, client.id, now);
    case Revoke(client, token) => RevokedAgrees(cfg, x, y, token, client.id, now);
    case UserInfo(token) => InfoShownAgrees(cfg, x, y, token, now);
  }

  // ---- Whole runs ----

  function WithoutSweeps(events: seq<Event>): seq<Event>
    decreases |events|
  {
    if events == [] then []
    else if events[0].Sweep? then WithoutSweeps(events[1..])
    else [events[0]] + WithoutSweeps(events[1..])
  }

  lemma {:induction false} RunsAgree(cfg: Settings, x: Db, y: Db, now: int, events: seq<Event>)
    requires Same(x, y, now) && Ordered(now, events)
    ensures Responses(cfg, x, events) == Responses(cfg, y, WithoutSweeps(events))
    decreases |events|
  {
    hide Same, Handled, SweptDb;
    if events != [] {
      var e := events[0];
      SameLater(x, y, now, e.at);
      if e.Serve? {
        HandledAgrees(cfg, e.clients, x, y, e.call, e.draws, e.at);
        var next, other := Handled(cfg, e.clients, x, e.call, e.draws, e.at),
          Handled(cfg, e.clients, y, e.call, e.draws, e.at);
        RunsAgree(cfg, next.0, other.0, e.at, events[1..]);
        var rest := WithoutSweeps(events[1..]);
        assert WithoutSweeps(events) == [e] + rest;
        assert ([e] + rest)[1..] == rest;
      } else {
        SameSwept(x, y, e.at, e.reading);
        RunsAgree(cfg, SweptDb(x, e.reading), y, e.at, events[1..]);
      }
    }
  }

  /** From any store, any sequence of calls gets the same answers whether or not sweeps run in between. */
  lemma SweepsAreUnobservable(cfg: Settings, db: Db, now: int, events: seq<Event>)
    requires Ordered(now, events)
    ensures Responses(cfg, db, events) == Responses(cfg, db, WithoutSweeps(events))
  {
    assert Same(db, db, now);
    RunsAgree(cfg, db, db, now, events);
  }
}
