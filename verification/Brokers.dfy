/** The handlers as they run: store transactions one after the other. Each ends in the state and with the answer
    that its function in Handlers gives, when nothing else runs in between and the clock stands still. */
module Brokers {
  import opened Entities
  import opened Transactions
  import opened Scopes
  import opened Consents
  import opened Sessions
  import opened Handlers
  import opened Storage
  import Flow = AuthorizationFlow

  class Broker {
    const cfg: Settings
    const store: Store

    constructor (cfg: Settings, store: Store)
      ensures this.cfg == cfg && this.store == store
    {
      this.cfg, this.store := cfg, store;
    }

    // ---- Sessions ----

    method ValidSession(cookie: string, csrf: string, now: int) returns (found: Option<Session>)
      modifies store`sessions
      ensures Answer(store.sessions, found) == Validated(old(store.sessions), cookie, csrf, now)
    {
      if cookie == "" {
        return None;
      }
      found := store.GetSession(cookie);
      if found.None? {
        return None;
      }
      if Lapsed(found.value, now) {
        store.DeleteSession(cookie);
        return None;
      }
      if found.value.csrfToken == "" {
        found := store.EnsureSessionCSRF(cookie, csrf);
      }
    }

    method MaybeExtendSession(cookie: string, csrf: string, now: int) returns (found: Option<Session>)
      modifies store`sessions
      ensures Answer(store.sessions, found) == Touched(cfg.life, old(store.sessions), cookie, csrf, now)
    {
      if cookie == "" {
        return None;
      }
      found := store.GetSession(cookie);
      if found.None? {
        return None;
      }
      if Lapsed(found.value, now) {
        store.DeleteSession(cookie);
        return None;
      }
      if found.value.csrfToken == "" {
        found := store.EnsureSessionCSRF(cookie, csrf);
      }
      var s := found.value;
      if cfg.life.ttl <= 0 || s.expiresAt - now > cfg.life.ttl / 2 {
        return;
      }
      var newExpiry := now + cfg.life.ttl;
      if s.absoluteExpiresAt.Some? && newExpiry > s.absoluteExpiresAt.value {
        newExpiry := s.absoluteExpiresAt.value;
      }
      s := s.(expiresAt := newExpiry);
      store.PutSession(cookie, s);
      found := Some(s);
    }

    method MarkSessionReAuth(cookie: string, now: int)
      modifies store`sessions
      ensures store.sessions == ReAuthenticated(old(store.sessions), cookie, now)
    {
      if cookie == "" {
        return;
      }
      var found := store.GetSession(cookie);
      if found.Some? {
        store.PutSession(cookie, found.value.(reAuthAt := Some(now)));
      }
    }

    method CreateSession(userID: string, authenticated: bool, amr: seq<string>, d: Draws, now: int) returns (s: Session)
      modifies store`sessions
      ensures s == Opened(cfg.life, userID, authenticated, amr, d.csrf, now)
      ensures store.sessions == old(store.sessions)[d.sid := s]
    {
      s := Session(userID, now + cfg.life.ttl, None, now, d.csrf, None, amr);
      if cfg.life.absolute > 0 {
        s := s.(absoluteExpiresAt := Some(now + cfg.life.absolute));
      }
      if authenticated {
        s := s.(reAuthAt := Some(now));
      }
      store.PutSession(d.sid, s);
    }

    // ---- Codes and consent ----

    method IssueCodeRedirect(ar: AuthRequest, s: Session, code: string, now: int) returns (r: Response)
      modifies store`codes
      ensures (store.Value(), r) == CodeIssued(cfg, old(store.Value()), ar, s, code, now)
    {
      var ac := AuthCode(s.userID, ar.clientID, ar.redirectURI, ar.scope, ar.nonce, ar.codeChallenge,
                         ar.codeChallengeMethod, s.authTime, now + cfg.flow.codeTTL, s.amr);
      store.PutAuthCode(Digest(code), ac);
      r := GoClient(ar.redirectURI, code);
    }

    method ProceedAfterAuthn(clients: map<string, Client>, ar: AuthRequest, s: Session, allowed: bool, code: string,
                             now: int)
      returns (r: Response)
      modifies store`codes, store`requests
      ensures (store.Value(), r) == Proceeded(cfg, clients, old(store.Value()), ar, s, allowed, code, now)
    {
      if ar.clientID !in clients {
        return Failed(UnknownClient);
      }
      if !clients[ar.clientID].requireConsent {
        r := IssueCodeRedirect(ar, s, code, now);
        return;
      }
      var rec := store.GetConsent(s.userID, ar.clientID);
      if rec.Some? {
        var want := RequestedScopeList(ar.scope);
        var covers := ConsentCovers(rec.value.scopes, want);
        if covers {
          r := IssueCodeRedirect(ar, s, code, now);
          return;
        }
      }
      if !allowed {
        return Failed(TooManyRequests);
      }
      store.PutAuthRequest(ar.(expiresAt := now + Flow.CONSENT_EXPIRY));
      r := GoConsent(ar.id);
    }

    method CheckPrompt(q: Query, scope: string, client: Client, s: Option<Session>, now: int) returns (v: Verdict)
      ensures v == Prompted(store.consents, q, scope, client, s, now)
    {
      hide Scopes.Tokens, RequestedScopes;
      var prompts := Scopes.Tokens(q.prompt);
      if "none" in prompts && prompts != {"none"} {
        return Refuse(InvalidRequest);
      }
      if q.maxAge.Malformed? {
        return Refuse(InvalidRequest);
      }
      var stale := q.maxAge.Seconds? && s.Some? && now - s.value.authTime > q.maxAge.n * SECOND;
      if "none" in prompts {
        if s.None? || stale {
          return Refuse(LoginRequired);
        }
        if client.requireConsent {
          var rec := store.GetConsent(s.value.userID, client.id);
          if rec.None? {
            return Refuse(ConsentRequired);
          }
          var want := RequestedScopeList(scope);
          var covers := ConsentCovers(rec.value.scopes, want);
          if !covers {
            return Refuse(ConsentRequired);
          }
        }
        return Verdict.Proceed(false);
      }
      v := Verdict.Proceed("login" in prompts || stale);
    }

    method HandleAuthorize(clients: map<string, Client>, q: Query, cookie: string, allowed: bool, d: Draws, now: int)
      returns (r: Response)
      modifies store`sessions, store`requests, store`codes
      ensures (store.Value(), r) == Authorized(cfg, clients, old(store.Value()), q, cookie, allowed, d, now)
    {
      hide Validated, Touched, Prompted, Proceeded, AuthorizationScope, Flow.PKCEAcceptable;
      if q.clientID !in clients {
        return Failed(UnknownClient);
      }
      var client := clients[q.clientID];
      if q.redirectURI !in client.redirectURIs {
        return Failed(InvalidRedirect);
      }
      var scope := ValidateAuthorizationScope(client, q.scope);
      if scope.Err? {
        return Failed(InvalidScope);
      }
      var challengeMethod := q.challengeMethod;
      if challengeMethod == "" && q.challenge != "" {
        challengeMethod := "S256";
      }
      if !Flow.PKCEAcceptable(client, q.challenge, challengeMethod) {
        return Failed(InvalidRequest);
      }
      var ar := AuthRequest(d.id, client.id, q.redirectURI, scope.value, q.nonce, q.challenge, challengeMethod,
                            now + cfg.flow.codeTTL);
      var found := ValidSession(cookie, d.csrf, now);
      var verdict := CheckPrompt(q, ar.scope, client, found, now);
      if verdict.Refuse? {
        return Failed(verdict.error);
      }
      if found.Some? && !verdict.forceLogin {
        var _ := MaybeExtendSession(cookie, d.csrf, now);
        r := ProceedAfterAuthn(clients, ar, found.value, allowed, d.code, now);
        return;
      }
      if !allowed {
        return Failed(TooManyRequests);
      }
      store.PutAuthRequest(ar);
      r := GoLogin(ar.id);
    }

    method HandleLoginPost(clients: map<string, Client>, request: string, user: Option<(string, seq<string>)>,
                           allowed: bool, d: Draws, now: int) returns (r: Response)
      modifies store`codes, store`requests, store`sessions
      ensures (store.Value(), r) == LoggedIn(cfg, clients, old(store.Value()), request, user, allowed, d, now)
    {
      hide Proceeded, Opened;
      var ar: Option<AuthRequest> := None;
      if request != "" {
        ar := store.ConsumeAuthRequest(request);
        if ar.None? || now > ar.value.expiresAt {
          return Failed(RequestExpired);
        }
      }
      if user.None? {
        if request != "" {
          store.PutAuthRequest(ar.value);
        }
        return Failed(BadCredentials);
      }
      var s := CreateSession(user.value.0, true, user.value.1, d, now);
      if request != "" {
        r := ProceedAfterAuthn(clients, ar.value, s, allowed, d.code, now);
        return;
      }
      r := Home(Some(s));
    }

    method HandleConsentPost(cookie: string, csrf: string, request: string, approve: bool, d: Draws, now: int)
      returns (r: Response)
      modifies store`codes, store`requests, store`sessions, store`consents
      ensures (store.Value(), r) == Decided(cfg, old(store.Value()), cookie, csrf, request, approve, d, now)
    {
      hide Validated, CodeIssued, TrimSpace, MergeScopes, RequestedScopes;
      var found := ValidSession(cookie, d.csrf, now);
      if found.None? {
        return Failed(NotAuthenticated);
      }
      var s := found.value;
      if csrf == "" || csrf != s.csrfToken {
        return Failed(BadCSRF);
      }
      var rid := TrimSpace(request);
      if rid == "" {
        return Failed(MissingRequest);
      }
      var ar := store.ConsumeAuthRequest(rid);
      if ar.None? || now > ar.value.expiresAt {
        return Failed(RequestExpired);
      }
      if !approve {
        return Failed(AccessDenied);
      }
      var merged := RequestedScopeList(ar.value.scope);
      var existing := store.GetConsent(s.userID, ar.value.clientID);
      if existing.Some? {
        merged := MergeScopeSets(existing.value.scopes, merged);
      }
      var ok := store.PutConsent(Consent(s.userID, ar.value.clientID, merged));
      if !ok {
        return Failed(StoreError);
      }
      r := IssueCodeRedirect(ar.value, s, d.code, now);
    }

    // ---- Tokens ----

    method TokenAuthorizationCode(client: Client, code: string, redirectURI: string, verifier: string, d: Draws,
                                  now: int)
      returns (r: Response)
      modifies store`codes, store`refresh
      ensures (store.Value(), r) == Redeemed(cfg, old(store.Value()), client, code, redirectURI, verifier, d, now)
    {
      hide Scopes.Tokens, Flow.VerifyPKCE;
      var ac := store.ConsumeAuthCode(Digest(code));
      if ac.None? || now > ac.value.expiresAt {
        return Failed(InvalidGrant);
      }
      var c := ac.value;
      if c.clientID != client.id || c.redirectURI != redirectURI {
        return Failed(InvalidGrant);
      }
      if c.codeChallenge != "" && !Flow.VerifyPKCE(cfg.flow, c.codeChallenge, c.codeChallengeMethod, verifier) {
        return Failed(InvalidGrant);
      }
      if client.allowOffline && OFFLINE_ACCESS in Scopes.Tokens(c.scope) {
        store.PutRefreshToken(Digest(d.secret),
                              RefreshToken(c.userID, client.id, c.scope, c.authTime, now + cfg.refreshTTL, c.amr,
                                           d.family, 0));
        return Granted(c.userID, client.id, c.scope, c.nonce, c.authTime, c.amr, Some(d.secret));
      }
      r := Granted(c.userID, client.id, c.scope, c.nonce, c.authTime, c.amr, None);
    }

    method TokenRefresh(client: Client, token: string, scope: string, d: Draws, now: int) returns (r: Response)
      modifies store`refresh, store`consumed
      ensures (store.Value(), r) == Refreshed(cfg, old(store.Value()), client, token, scope, d, now)
    {
      hide Scopes.Tokens, TrimSpace, WithoutFamily;
      var key, wanted := Digest(token), TrimSpace(scope);
      var tombstone := store.GetConsumedRefreshToken(key);
      if tombstone.Some? && !(now > tombstone.value.expiresAt) {
        if tombstone.value.clientID == client.id {
          store.RevokeRefreshTokenFamily(tombstone.value.familyID);
        }
        return Failed(InvalidGrant);
      }
      var found := store.GetRefreshToken(key);
      if found.None? {
        return Failed(InvalidGrant);
      }
      var prior := found.value;
      if now > prior.expiresAt || prior.clientID != client.id {
        if now > prior.expiresAt {
          var _ := store.DeleteRefreshToken(key);
        }
        return Failed(InvalidGrant);
      }
      if wanted != "" {
        var subset := ScopeSubset(wanted, prior.scope);
        if !subset {
          return Failed(InvalidScope);
        }
      }
      var granted := if wanted == "" then prior.scope else wanted;
      var rotation := NewRotation(prior, client.id, granted, d.secret, d.family, now, cfg.refreshTTL);
      var rotated := store.RotateRefreshToken(key, rotation.key, rotation.next, rotation.tombstone);
      if !rotated {
        return Failed(InvalidGrant);
      }
      r := Granted(prior.userID, client.id, granted, "", prior.authTime, prior.amr, Some(d.secret));
    }

    // ---- Verification, introspection and revocation ----

    method VerifyTokenNotRevoked(jti: string, now: int) returns (ok: bool)
      modifies store`revoked
      ensures (store.revoked, ok) == NotRevoked(old(store.revoked), jti, now)
    {
      if jti == "" {
        return true;
      }
      var exp := store.GetRevokedJTI(jti);
      if exp.None? {
        return true;
      }
      if now > exp.value {
        store.DeleteRevokedJTI(jti);
        return true;
      }
      ok := false;
    }

    method VerifyJWT(token: string, now: int) returns (claims: Option<Claims>)
      modifies store`revoked
      ensures (store.revoked, claims) == Verified(cfg, old(store.revoked), token, now)
    {
      claims := cfg.jwt(token);
      if claims.None? || !claims.value.issuerOk || JwtExpired(claims.value, now) || JwtNotActive(claims.value, now) {
        return None;
      }
      var ok := VerifyTokenNotRevoked(claims.value.jti, now);
      if !ok {
        return None;
      }
    }

    method IntrospectRefreshToken(token: string, clientID: string, now: int) returns (r: Response)
      ensures r == RefreshShown(store.Value(), token, clientID, now)
    {
      var t := store.GetRefreshToken(Digest(token));
      if t.None? || t.value.clientID != clientID || now > t.value.expiresAt {
        return Inactive;
      }
      r := ActiveRefresh(t.value);
    }

    method IntrospectJWT(token: string, clientID: string, now: int) returns (r: Response)
      modifies store`revoked
      ensures (store.Value(), r) == JwtShown(cfg, old(store.Value()), token, clientID, now)
    {
      hide Verified;
      var claims := VerifyJWT(token, now);
      r := if claims.Some? && clientID != "" && clientID in claims.value.holders then ActiveJWT(claims.value)
        else Inactive;
    }

    method HandleIntrospect(token: string, hint: string, clientID: string, now: int) returns (r: Response)
      modifies store`revoked
      ensures (store.Value(), r) == Introspected(cfg, old(store.Value()), token, hint, clientID, now)
    {
      hide JwtShown, RefreshShown, TrimSpace;
      var tok := TrimSpace(token);
      if tok == "" {
        return Inactive;
      }
      if hint == "refresh_token" {
        r := IntrospectRefreshToken(tok, clientID, now);
        if !r.ActiveRefresh? {
          r := IntrospectJWT(tok, clientID, now);
        }
        return;
      }
      r := IntrospectJWT(tok, clientID, now);
      if !r.ActiveJWT? {
        r := IntrospectRefreshToken(tok, clientID, now);
      }
    }

    method RevokeRefreshToken(token: string, clientID: string)
      modifies store`refresh
      ensures store.refresh == RefreshRevoked(old(store.refresh), token, clientID)
    {
      if token == "" {
        return;
      }
      var t := store.GetRefreshToken(Digest(token));
      if t.None? || t.value.clientID != clientID {
        return;
      }
      var _ := store.DeleteRefreshToken(Digest(token));
    }

    method RevokeJWT(token: string, clientID: string, now: int)
      modifies store`revoked
      ensures store.revoked == JwtRevoked(cfg, old(store.revoked), token, clientID, now)
    {
      hide Verified;
      var claims := VerifyJWT(token, now);
      if claims.None? || claims.value.owner != clientID || claims.value.jti == "" || claims.value.exp.None? {
        return;
      }
      store.PutRevokedJTI(claims.value.jti, claims.value.exp.value * SECOND + SKEW);
    }

    method HandleRevoke(token: string, clientID: string, now: int)
      modifies store`refresh, store`revoked
      ensures store.Value() == Revoked(cfg, old(store.Value()), token, clientID, now)
    {
      hide RefreshRevoked, JwtRevoked;
      RevokeRefreshToken(token, clientID);
      RevokeJWT(token, clientID, now);
    }

    // ---- Pages and the endpoints together ----

    method HandleLoginGet(request: string, allowed: bool, now: int) returns (r: Response)
      ensures r == LoginShown(store.Value(), request, allowed, now)
    {
      if request == "" {
        return ShowLogin("authbroker");
      }
      if !allowed {
        return Failed(TooManyRequests);
      }
      var ar := store.GetAuthRequest(request);
      if ar.None? || now > ar.value.expiresAt {
        return Failed(RequestExpired);
      }
      r := ShowLogin(ar.value.clientID);
    }

    method HandleConsentGet(clients: map<string, Client>, cookie: string, request: string, d: Draws, now: int)
      returns (r: Response)
      modifies store`sessions
      ensures (store.Value(), r) == ConsentShown(clients, old(store.Value()), cookie, request, d, now)
    {
      hide Validated, TrimSpace;
      var found := ValidSession(cookie, d.csrf, now);
      if found.None? {
        return GoLogin("");
      }
      var rid := TrimSpace(request);
      if rid == "" {
        return Failed(MissingRequest);
      }
      var ar := store.GetAuthRequest(rid);
      if ar.None? || now > ar.value.expiresAt {
        return Failed(RequestExpired);
      }
      if ar.value.clientID !in clients {
        return Failed(UnknownClient);
      }
      r := ShowConsent(ar.value, found.value);
    }

    method HandleReAuth(cookie: string, csrf: string, passwordOk: bool, d: Draws, now: int) returns (r: Response)
      modifies store`sessions
      ensures (store.Value(), r) == ReAuthed(old(store.Value()), cookie, csrf, passwordOk, d, now)
    {
      hide Validated, ReAuthenticated;
      var found := ValidSession(cookie, d.csrf, now);
      if found.None? {
        return Failed(NotAuthenticated);
      }
      if csrf == "" || csrf != found.value.csrfToken {
        return Failed(BadCSRF);
      }
      if !passwordOk {
        return Failed(BadCredentials);
      }
      MarkSessionReAuth(cookie, now);
      r := Done;
    }

    method HandleLocalLogoutPost(cookie: string, csrf: string, d: Draws, now: int) returns (r: Response)
      modifies store`sessions
      ensures (store.Value(), r) == LoggedOut(old(store.Value()), cookie, csrf, d, now)
    {
      hide Validated;
      var found := ValidSession(cookie, d.csrf, now);
      if found.Some? && (csrf == "" || csrf != found.value.csrfToken) {
        return Failed(BadCSRF);
      }
      if cookie != "" {
        store.DeleteSession(cookie);
      }
      r := Done;
    }

    method HandleUserInfo(token: string, now: int) returns (r: Response)
      modifies store`revoked
      ensures (store.Value(), r) == InfoShown(cfg, old(store.Value()), token, now)
    {
      hide Verified;
      if token == "" {
        return Failed(MissingToken);
      }
      var claims := VerifyJWT(token, now);
      r := if claims.Some? && claims.value.access then Profile(claims.value) else Failed(InvalidToken);
    }

    method ServeClient(clients: map<string, Client>, call: Call, d: Draws, now: int) returns (r: Response)
      requires call.Redeem? || call.Refresh? || call.Introspect? || call.Revoke? || call.UserInfo?
      modifies store
      ensures (store.Value(), r) == Handled(cfg, clients, old(store.Value()), call, d, now)
    {
      hide Redeemed, Refreshed, Introspected, Revoked, InfoShown;
      match call
      case Redeem(client, code, redirectURI, verifier) =>
        r := TokenAuthorizationCode(client, code, redirectURI, verifier, d, now);
      case Refresh(client, token, scope) => r := TokenRefresh(client, token, scope, d, now);
      case Introspect(client, token, hint) => r := HandleIntrospect(token, hint, client.id, now);
      case Revoke(client, token) =>
        HandleRevoke(token, client.id, now);
        r := Done;
      case UserInfo(token) => r := HandleUserInfo(token, now);
    }

    method ServeSession(clients: map<string, Client>, call: Call, d: Draws, now: int) returns (r: Response)
      requires call.Visit? || call.Check? || call.ReAuth? || call.Logout?
      modifies store
      ensures (store.Value(), r) == Handled(cfg, clients, old(store.Value()), call, d, now)
    {
      hide Validated, Touched, ReAuthed, LoggedOut;
      match call
      case Visit(cookie) =>
        var visitor := MaybeExtendSession(cookie, d.csrf, now);
        r := Home(visitor);
      case Check(cookie) =>
        var visitor := ValidSession(cookie, d.csrf, now);
        r := Home(visitor);
      case ReAuth(cookie, csrf, passwordOk) => r := HandleReAuth(cookie, csrf, passwordOk, d, now);
      case Logout(cookie, csrf) => r := HandleLocalLogoutPost(cookie, csrf, d, now);
    }

    /** Every endpoint of the model, against the function that describes it. */
    method Serve(clients: map<string, Client>, call: Call, d: Draws, now: int) returns (r: Response)
      modifies store
      ensures (store.Value(), r) == Handled(cfg, clients, old(store.Value()), call, d, now)
    {
      if call.Redeem? || call.Refresh? || call.Introspect? || call.Revoke? || call.UserInfo? {
        r := ServeClient(clients, call, d, now);
      } else if call.Visit? || call.Check? || call.ReAuth? || call.Logout? {
        r := ServeSession(clients, call, d, now);
      } else {
        hide Authorized, LoginShown, LoggedIn, ConsentShown, Decided;
        match call
        case Authorize(q, cookie, allowed) => r := HandleAuthorize(clients, q, cookie, allowed, d, now);
        case LoginPage(request, allowed) => r := HandleLoginGet(request, allowed, now);
        case Login(request, user, allowed) => r := HandleLoginPost(clients, request, user, allowed, d, now);
        case ConsentPage(cookie, request) => r := HandleConsentGet(clients, cookie, request, d, now);
        case Decide(cookie, csrf, request, approve) => r := HandleConsentPost(cookie, csrf, request, approve, d, now);
      }
    }
  }
}
