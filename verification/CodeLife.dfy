/** How long an authorization code lasts, who may exchange it and what the exchange gives. */
module CodeLife {
  import opened Entities
  import opened Scopes
  import opened Sessions
  import opened Handlers
  import opened Runs
  import opened TokenLife
  import Flow = AuthorizationFlow

  // The code is stored under its key until it expires
  predicate Stored(db: Db, key: Digest, code: AuthCode, now: int) {
    (key in db.codes ==> db.codes[key] == code) && (now <= code.expiresAt ==> key in db.codes)
  }

  // Nobody presents the code, and no draw repeats it
  predicate Unpresented(e: Event, code: string) {
    e.Serve? ==> e.draws.code != code && (e.call.Redeem? ==> e.call.code != code)
  }

  // ---- What one event does to a code ----

  // The two buckets hold the same under every other key
  ghost predicate SameElsewhere<K(!new), V>(a: map<K, V>, b: map<K, V>, key: K) {
    forall k :: k != key ==> (k in a <==> k in b) && (k in b ==> a[k] == b[k])
  }

  lemma ProceedStoresOne(cfg: Settings, clients: map<string, Client>, db: Db, ar: AuthRequest, s: Session,
                         allowed: bool, code: string, now: int)
    ensures SameElsewhere(Proceeded(cfg, clients, db, ar, s, allowed, code, now).0.codes, db.codes, Digest(code))
  {
    hide ConsentGiven;
  }

  lemma AuthorizeStoresOne(cfg: Settings, clients: map<string, Client>, db: Db, q: Query, cookie: string,
                           allowed: bool, d: Draws, now: int)
    ensures SameElsewhere(Authorized(cfg, clients, db, q, cookie, allowed, d, now).0.codes, db.codes, Digest(d.code))
  {
    hide Requested, Prompted, Validated, Touched, Proceeded, SameElsewhere;
    Unchanged(db.codes, Digest(d.code));
    var v, ar := Validated(db.sessions, cookie, d.csrf, now), Requested(cfg, clients, q, d.id, now);
    if ar.Ok? && v.found.Some? {
      ProceedStoresOne(cfg, clients, db.(sessions := Touched(cfg.life, v.sessions, cookie, d.csrf, now).sessions),
                       ar.value, v.found.value, allowed, d.code, now);
    }
  }

  lemma Unchanged<K(!new), V>(a: map<K, V>, key: K)
    ensures SameElsewhere(a, a, key)
  {
  }

  lemma LoginStoresOne(cfg: Settings, clients: map<string, Client>, db: Db, request: string,
                       user: Option<(string, seq<string>)>, allowed: bool, d: Draws, now: int)
    ensures SameElsewhere(LoggedIn(cfg, clients, db, request, user, allowed, d, now).0.codes, db.codes, Digest(d.code))
  {
    hide Proceeded, SameElsewhere, Opened, LoggedIn, SameTokens;
    LoginCases(cfg, clients, db, request, user, allowed, d, now);
    Unchanged(db.codes, Digest(d.code));
    if user.Some? && request in db.requests {
      var s := Opened(cfg.life, user.value.0, true, user.value.1, d.csrf, now);
      ProceedStoresOne(cfg, clients, db.(requests := db.requests - {request}, sessions := db.sessions[d.sid := s]),
                       db.requests[request], s, allowed, d.code, now);
    }
  }

  lemma DecideStoresOne(cfg: Settings, db: Db, cookie: string, csrf: string, request: string, approve: bool, d: Draws,
                        now: int)
    ensures SameElsewhere(Decided(cfg, db, cookie, csrf, request, approve, d, now).0.codes, db.codes, Digest(d.code))
  {
    hide Validated, TrimSpace, ConsentRecorded;
  }

  lemma ServeStores(cfg: Settings, clients: map<string, Client>, db: Db, call: Call, d: Draws, now: int, code: string)
    requires d.code != code && (call.Redeem? ==> call.code != code)
    ensures var after := Handled(cfg, clients, db, call, d, now).0.codes;
      (Digest(code) in after <==> Digest(code) in db.codes) &&
      (Digest(code) in db.codes ==> after[Digest(code)] == db.codes[Digest(code)])
  {
    hide Authorized, LoggedIn, Decided, Redeemed, SameTokens, SameFront;
    match call
    case Authorize(q, cookie, allowed) => AuthorizeStoresOne(cfg, clients, db, q, cookie, allowed, d, now);
    case Login(request, user, allowed) => LoginStoresOne(cfg, clients, db, request, user, allowed, d, now);
    case Decide(cookie, csrf, request, approve) =>
      DecideStoresOne(cfg, db, cookie, csrf, request, approve, d, now);
    case Redeem(client, code, redirectURI, verifier) =>
      RedeemBurnsOne(cfg, db, client, code, redirectURI, verifier, d, now);
    case _ =>
      hide Handled;
      OthersStoreNone(cfg, clients, db, call, d, now);
  }

  lemma RedeemBurnsOne(cfg: Settings, db: Db, client: Client, code: string, redirectURI: string, verifier: string,
                       d: Draws, now: int)
    ensures Redeemed(cfg, db, client, code, redirectURI, verifier, d, now).0.codes == db.codes - {Digest(code)}
  {
    hide Flow.CodeRedeemable, Tokens, SameFront;
  }

  lemma OthersStoreNone(cfg: Settings, clients: map<string, Client>, db: Db, call: Call, d: Draws, now: int)
    requires !call.Authorize? && !call.Login? && !call.Decide? && !call.Redeem?
    ensures Handled(cfg, clients, db, call, d, now).0.codes == db.codes
  {
    hide ConsentShown, ReAuthed, LoggedOut, Refreshed, Introspected, InfoShown, Revoked, Touched, Validated, LoginShown;
  }

  lemma {:induction false} RunStores(cfg: Settings, db: Db, now: int, events: seq<Event>, later: int, secret: string,
                                     code: AuthCode)
    requires Stored(db, Digest(secret), code, now) && Between(now, events, later)
    requires forall e :: e in events ==> Unpresented(e, secret)
    ensures Stored(After(cfg, db, events), Digest(secret), code, later)
    decreases |events|
  {
    hide Handled, SweptDb;
    if events != [] {
      var e := events[0];
      assert Unpresented(e, secret);
      if e.Serve? {
        ServeStores(cfg, e.clients, db, e.call, e.draws, e.at, secret);
      } else {
        SweepStores(db, e.reading, Digest(secret), code, e.at);
      }
      RunStores(cfg, Next(cfg, db, e), e.at, events[1..], later, secret, code);
    }
  }

  lemma SweepStores(db: Db, reading: int, key: Digest, code: AuthCode, now: int)
    requires Stored(db, key, code, now) && reading <= now
    ensures Stored(SweptDb(db, reading), key, code, now)
  {
  }

  // ---- Redeeming the code ----

  // Section 4.1 of RFC 7636: 43 to 128 letters, digits, hyphens, periods, underscores and tildes
  predicate WellFormedVerifier(verifier: string) {
    && 43 <= |verifier| <= 128
    && forall i :: 0 <= i < |verifier| ==>
         var c := verifier[i] as int;
         || 0x41 <= c <= 0x5a || 0x61 <= c <= 0x7a || 0x30 <= c <= 0x39
         || c == 0x2d || c == 0x2e || c == 0x5f || c == 0x7e
  }

  // The client that the code was issued to, at the address it was sent to, with the verifier of its challenge
  predicate Entitled(cfg: Settings, code: AuthCode, client: Client, redirectURI: string, verifier: string) {
    && client.id == code.clientID && redirectURI == code.redirectURI
    && (code.codeChallenge != "" ==>
          && code.codeChallengeMethod == "S256" && WellFormedVerifier(verifier)
          && cfg.flow.s256(verifier) == code.codeChallenge)
  }

  // The response to a redemption: the login behind the code, and a refresh token if one is due
  function Response(code: AuthCode, client: Client, secret: string): Handlers.Response {
    Granted(code.userID, client.id, code.scope, code.nonce, code.authTime, code.amr,
            if client.allowOffline && "offline_access" in Tokens(code.scope) then Some(secret) else None)
  }

  lemma VerifiersAgree(verifier: string)
    ensures Flow.ValidVerifier(verifier) <==> WellFormedVerifier(verifier)
  {
    if WellFormedVerifier(verifier) {
      forall c | c in verifier
        ensures 'A' <= c <= 'Z' || 'a' <= c <= 'z' || '0' <= c <= '9' || c == '-' || c == '.' || c == '_' || c == '~'
      {
        var i :| 0 <= i < |verifier| && verifier[i] == c;
      }
    }
    if Flow.ValidVerifier(verifier) {
      assert forall i :: 0 <= i < |verifier| ==> verifier[i] in verifier;
    }
  }

  lemma Redemption(cfg: Settings, db: Db, client: Client, secret: string, redirectURI: string, verifier: string,
                   d: Draws, now: int, code: AuthCode)
    requires Stored(db, Digest(secret), code, now)
    ensures Redeemed(cfg, db, client, secret, redirectURI, verifier, d, now).1 ==
            if now <= code.expiresAt && Entitled(cfg, code, client, redirectURI, verifier) then
              Response(code, client, d.secret)
            else Failed(InvalidGrant)
  {
    hide Tokens, Flow.ValidVerifier, WellFormedVerifier;
    VerifiersAgree(verifier);
  }

  /** A code that is in the store is honoured exactly up to its expiry and exactly for whom it was issued, whatever
      calls and sweeps have come in between without presenting it; the response names the login behind the code. */
  lemma CodeLasts(cfg: Settings, clients: map<string, Client>, db: Db, secret: string, code: AuthCode, now: int,
                  events: seq<Event>, client: Client, redirectURI: string, verifier: string, d: Draws, later: int)
    requires Stored(db, Digest(secret), code, now) && Between(now, events, later)
    requires forall e :: e in events ==> Unpresented(e, secret)
    ensures Handled(cfg, clients, After(cfg, db, events), Redeem(client, secret, redirectURI, verifier), d, later).1 ==
            if later <= code.expiresAt && Entitled(cfg, code, client, redirectURI, verifier) then
              Response(code, client, d.secret)
            else Failed(InvalidGrant)
  {
    hide Stored, After, Between, Redeemed, Entitled, Response;
    RunStores(cfg, db, now, events, later, secret, code);
    Redemption(cfg, After(cfg, db, events), client, secret, redirectURI, verifier, d, later, code);
  }

  // ---- The refresh token that comes with it ----

  lemma RedemptionHandsOut(cfg: Settings, db: Db, client: Client, secret: string, redirectURI: string, verifier: string,
                           d: Draws, now: int)
    requires var r := Redeemed(cfg, db, client, secret, redirectURI, verifier, d, now).1;
      r.Granted? && r.refreshToken.Some?
    requires Digest(d.secret) !in db.consumed
    ensures var r := Redeemed(cfg, db, client, secret, redirectURI, verifier, d, now);
      && r.1.refreshToken == Some(d.secret) && r.1.clientID == client.id
      && Kept(r.0, Digest(d.secret), RefreshToken(r.1.userID, client.id, r.1.scope, r.1.authTime, now + cfg.refreshTTL,
                                                  r.1.amr, d.family, 0), now)
  {
    hide Tokens, Flow.VerifyPKCE;
  }

  /** The refresh token that comes with a redemption is good for one refresh lifetime, for its client and within the
      scope of the code, whatever calls and sweeps have spared it since; what it gives names the code's login. */
  lemma RedeemedTokenLasts(cfg: Settings, clients: map<string, Client>, db: Db, client: Client, secret: string,
                           redirectURI: string, verifier: string, d: Draws, now: int, events: seq<Event>,
                           other: Client, scope: string, e: Draws, later: int)
    requires var r := Handled(cfg, clients, db, Redeem(client, secret, redirectURI, verifier), d, now).1;
      r.Granted? && r.refreshToken.Some?
    requires Digest(d.secret) !in db.consumed && Between(now, events, later)
    requires var r := Handled(cfg, clients, db, Redeem(client, secret, redirectURI, verifier), d, now);
      Spared(cfg, r.0, events, d.secret, RefreshToken(r.1.userID, client.id, r.1.scope, r.1.authTime,
                                                      now + cfg.refreshTTL, r.1.amr, d.family, 0))
    ensures var r := Handled(cfg, clients, db, Redeem(client, secret, redirectURI, verifier), d, now);
      var again := Refresh(other, r.1.refreshToken.value, scope);
      var s := Handled(cfg, clients, After(cfg, r.0, events), again, e, later).1;
      && (s.Granted? <==>
            later <= now + cfg.refreshTTL && other.id == client.id && Tokens(scope) <= Tokens(r.1.scope))
      && (s.Granted? ==>
            && s.userID == r.1.userID && s.clientID == client.id && s.authTime == r.1.authTime && s.amr == r.1.amr
            && Tokens(s.scope) == if Tokens(scope) == {} then Tokens(r.1.scope) else Tokens(scope))
  {
    hide Redeemed, Refreshed, After, Spared, Between, Kept, Tokens;
    RedemptionHandsOut(cfg, db, client, secret, redirectURI, verifier, d, now);
    var r := Redeemed(cfg, db, client, secret, redirectURI, verifier, d, now);
    var token := RefreshToken(r.1.userID, client.id, r.1.scope, r.1.authTime, now + cfg.refreshTTL, r.1.amr, d.family,
                              0);
    TokenLasts(cfg, clients, r.0, d.secret, token, now, events, other, scope, e, later);
  }
}
