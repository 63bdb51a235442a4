/** The handlers one at a time: each is a function of the whole store at one clock reading. Random draws,
    the registry of clients and the outcome of a password check are parameters of the call. */
module Handlers {
  import opened Entities
  import opened Transactions
  import opened Scopes
  import opened Consents
  import opened Sessions
  import Flow = AuthorizationFlow

  // Runtime buckets; revoked maps the id of a revoked token to the moment its tombstone expires
  datatype Db = Db(
    sessions: Bucket,
    requests: map<string, AuthRequest>,
    codes: map<Digest, AuthCode>,
    refresh: map<Digest, RefreshToken>,
    consumed: map<Digest, Tombstone>,
    revoked: map<string, int>,
    consents: map<string, Consent>
  )

  // When a sweep may drop a record
  function SessionExpiry(v: Session): int { v.expiresAt }
  function RequestExpiry(v: AuthRequest): int { v.expiresAt }
  function CodeExpiry(v: AuthCode): int { v.expiresAt }
  function RefreshExpiry(v: RefreshToken): int { v.expiresAt }
  function TombstoneExpiry(v: Tombstone): int { v.expiresAt }
  function JtiExpiry(v: int): int { v }
  function ChallengeExpiry(v: ChallengeRecord): int { v.expiresAt }

  // The token buckets are the same
  predicate SameTokens(a: Db, b: Db) {
    a.refresh == b.refresh && a.consumed == b.consumed && a.revoked == b.revoked
  }

  // The buckets of the browser's side are the same
  predicate SameFront(a: Db, b: Db) {
    a.sessions == b.sessions && a.requests == b.requests && a.consents == b.consents
  }

  // SweepExpired
  function SweptDb(db: Db, now: int): Db {
    db.(sessions := Swept(db.sessions, SessionExpiry, now),
        requests := Swept(db.requests, RequestExpiry, now),
        codes := Swept(db.codes, CodeExpiry, now),
        refresh := Swept(db.refresh, RefreshExpiry, now),
        consumed := Swept(db.consumed, TombstoneExpiry, now),
        revoked := Swept(db.revoked, JtiExpiry, now))
  }

  // Claims of a token with a good header and signature; exp and nbf in Unix seconds.
  // owner is what clientIDFromTokenClaims gives, holders what introspectClientOwnsToken accepts.
  datatype Claims = Claims(jti: string, exp: Option<int>, nbf: Option<int>, owner: string, holders: set<string>,
                           access: bool, issuerOk: bool)

  // jwt: what a token decodes to under the loaded keys
  datatype Settings = Settings(flow: Flow.Config, life: Lifetime, refreshTTL: int, jwt: string -> Option<Claims>)

  datatype MaxAge = Unset | Malformed | Seconds(n: nat)

  datatype Query = Query(clientID: string, redirectURI: string, scope: string, nonce: string, challenge: string,
                         challengeMethod: string, prompt: string, maxAge: MaxAge)

  // What randomB64 gives during one call
  datatype Draws = Draws(id: string, sid: string, csrf: string, code: string, secret: string, family: string)

  // allowed: what the rate limiters say
  datatype Call =
    | Authorize(q: Query, cookie: string, allowed: bool)
    | LoginPage(request: string, allowed: bool)
    | Login(request: string, user: Option<(string, seq<string>)>, allowed: bool)
    | ConsentPage(cookie: string, request: string)
    | Decide(cookie: string, csrf: string, request: string, approve: bool)
    | Visit(cookie: string)
    | Check(cookie: string)
    | ReAuth(cookie: string, csrf: string, passwordOk: bool)
    | Logout(cookie: string, csrf: string)
    | Redeem(client: Client, code: string, redirectURI: string, verifier: string)
    | Refresh(client: Client, token: string, scope: string)
    | Introspect(client: Client, token: string, hint: string)
    | Revoke(client: Client, token: string)
    | UserInfo(token: string)

  datatype Reason =
    | UnknownClient | TooManyRequests | InvalidRequest | LoginRequired | ConsentRequired | InvalidRedirect
    | InvalidScope | RequestExpired | BadCredentials | MissingRequest | NotAuthenticated | BadCSRF
    | AccessDenied | StoreError | InvalidGrant | MissingToken | InvalidToken

  datatype Response =
    | Failed(reason: Reason)
    | ShowLogin(clientID: string)
    | GoLogin(request: string)
    | GoConsent(request: string)
    | ShowConsent(ar: AuthRequest, s: Session)
    | GoClient(redirectURI: string, code: string)
    | Home(visitor: Option<Session>)
    | Done
    | Granted(userID: string, clientID: string, scope: string, nonce: string, authTime: int, amr: seq<string>,
             refreshToken: Option<string>)
    | ActiveRefresh(token: RefreshToken)
    | ActiveJWT(claims: Claims)
    | Inactive
    | Profile(claims: Claims)

  // ---- Codes ----

  function Taken<K, V>(bucket: map<K, V>, k: K): Option<V> {
    if k in bucket then Some(bucket[k]) else None
  }

  // issueCodeRedirect
  function CodeIssued(cfg: Settings, db: Db, ar: AuthRequest, s: Session, code: string, now: int): (r: (Db, Response))
    ensures SameTokens(r.0, db) && SameFront(r.0, db)
  {
    var ac := Flow.CodeFor(ar, Flow.Login(s.userID, s.authTime, s.amr), now + cfg.flow.codeTTL);
    (db.(codes := db.codes[Digest(code) := ac]), GoClient(ar.redirectURI, code))
  }

  // proceedAfterAuthn
  function Proceeded(cfg: Settings, clients: map<string, Client>, db: Db, ar: AuthRequest, s: Session, allowed: bool,
                     code: string, now: int): (r: (Db, Response))
    ensures SameTokens(r.0, db) && r.0.sessions == db.sessions && r.0.consents == db.consents
  {
    if ar.clientID !in clients then (db, Failed(UnknownClient))
    else if !clients[ar.clientID].requireConsent || ConsentGiven(db.consents, s.userID, ar.clientID, ar.scope) then
      CodeIssued(cfg, db, ar, s, code, now)
    else if !allowed then (db, Failed(TooManyRequests))
    else (db.(requests := db.requests[ar.id := ar.(expiresAt := now + Flow.CONSENT_EXPIRY)]), GoConsent(ar.id))
  }

  predicate ConsentGiven(consents: map<string, Consent>, userID: string, clientID: string, scope: string) {
    var k := ConsentKey(userID, clientID);
    k in consents && Covers(consents[k].scopes, RequestedScopes(scope))
  }

  // ---- Authorize ----

  datatype Verdict = Refuse(error: Reason) | Proceed(forceLogin: bool)

  // authTimeStale
  predicate Stale(s: Option<Session>, maxAge: MaxAge, now: int) {
    maxAge.Seconds? && s.Some? && now - s.value.authTime > maxAge.n * SECOND
  }

  // checkPrompt
  function Prompted(consents: map<string, Consent>, q: Query, scope: string, client: Client, s: Option<Session>,
                    now: int): Verdict {
    var prompts := Scopes.Tokens(q.prompt);
    if "none" in prompts && prompts != {"none"} then Refuse(InvalidRequest)
    else if q.maxAge.Malformed? then Refuse(InvalidRequest)
    else if "none" in prompts then
      if s.None? || Stale(s, q.maxAge, now) then Refuse(LoginRequired)
      else if client.requireConsent && !ConsentGiven(consents, s.value.userID, client.id, scope) then
        Refuse(ConsentRequired)
      else Proceed(false)
    else Proceed("login" in prompts || Stale(s, q.maxAge, now))
  }

  // The request handleAuthorize accepts, before it looks at the session
  function Requested(cfg: Settings, clients: map<string, Client>, q: Query, id: string,
                     now: int): Result<AuthRequest, Reason> {
    if q.clientID !in clients then Err(UnknownClient)
    else
      var client := clients[q.clientID];
      if q.redirectURI !in client.redirectURIs then Err(InvalidRedirect)
      else
        var scope := AuthorizationScope(client, q.scope);
        var challengeMethod := if q.challengeMethod == "" && q.challenge != "" then "S256" else q.challengeMethod;
        if scope.Err? then Err(InvalidScope)
        else if !Flow.PKCEAcceptable(client, q.challenge, challengeMethod) then Err(InvalidRequest)
        else Ok(AuthRequest(id, client.id, q.redirectURI, scope.value, q.nonce, q.challenge, challengeMethod,
                            now + cfg.flow.codeTTL))
  }

  function Authorized(cfg: Settings, clients: map<string, Client>, db: Db, q: Query, cookie: string, allowed: bool,
                      d: Draws, now: int): (r: (Db, Response))
    ensures SameTokens(r.0, db)
  {
    var ar := Requested(cfg, clients, q, d.id, now);
    if ar.Err? then (db, Failed(ar.error))
    else
      var v := Validated(db.sessions, cookie, d.csrf, now);
      var db1 := db.(sessions := v.sessions);
      var verdict := Prompted(db.consents, q, ar.value.scope, clients[q.clientID], v.found, now);
      if verdict.Refuse? then (db1, Failed(verdict.error))
      else if v.found.Some? && !verdict.forceLogin then
        var db2 := db1.(sessions := Touched(cfg.life, v.sessions, cookie, d.csrf, now).sessions);
        Proceeded(cfg, clients, db2, ar.value, v.found.value, allowed, d.code, now)
      else if !allowed then (db1, Failed(TooManyRequests))
      else (db1.(requests := db1.requests[d.id := ar.value]), GoLogin(d.id))
  }

  // ---- Login and consent ----

  function LoginShown(db: Db, request: string, allowed: bool, now: int): Response {
    if request == "" then ShowLogin("authbroker")
    else if !allowed then Failed(TooManyRequests)
    else
      var ar := Taken(db.requests, request);
      if ar.None? || now > ar.value.expiresAt then Failed(RequestExpired) else ShowLogin(ar.value.clientID)
  }

  // handleLoginPost after the rate limit; user is what the credential checks gave
  function LoggedIn(cfg: Settings, clients: map<string, Client>, db: Db, request: string,
                    user: Option<(string, seq<string>)>, allowed: bool, d: Draws, now: int): (r: (Db, Response))
    ensures SameTokens(r.0, db)
  {
    var ar := if request == "" then None else Taken(db.requests, request);
    var db1 := if request == "" then db else db.(requests := db.requests - {request});
    if request != "" && (ar.None? || now > ar.value.expiresAt) then (db1, Failed(RequestExpired))
    else if user.None? then
      (if request == "" then db1 else db1.(requests := db1.requests[ar.value.id := ar.value]), Failed(BadCredentials))
    else
      var s := Opened(cfg.life, user.value.0, true, user.value.1, d.csrf, now);
      var db2 := db1.(sessions := db1.sessions[d.sid := s]);
      if request == "" then (db2, Home(Some(s))) else Proceeded(cfg, clients, db2, ar.value, s, allowed, d.code, now)
  }

  // How far a login gets
  lemma LoginCases(cfg: Settings, clients: map<string, Client>, db: Db, request: string,
                   user: Option<(string, seq<string>)>, allowed: bool, d: Draws, now: int)
    ensures var r := LoggedIn(cfg, clients, db, request, user, allowed, d, now);
      if request != "" && (request !in db.requests || now > db.requests[request].expiresAt) then
        r == (db.(requests := db.requests - {request}), Failed(RequestExpired))
      else if user.None? then
        r == (if request == "" then db
              else db.(requests := (db.requests - {request})[db.requests[request].id := db.requests[request]]),
              Failed(BadCredentials))
      else
        var s := Opened(cfg.life, user.value.0, true, user.value.1, d.csrf, now);
        var sessions := db.sessions[d.sid := s];
        r == if request == "" then (db.(sessions := sessions), Home(Some(s)))
             else Proceeded(cfg, clients, db.(requests := db.requests - {request}, sessions := sessions),
                            db.requests[request], s, allowed, d.code, now)
  {
    hide Proceeded, Opened;
  }

  function ConsentShown(clients: map<string, Client>, db: Db, cookie: string, request: string, d: Draws,
                        now: int): (r: (Db, Response))
    ensures r.0 == db.(sessions := Validated(db.sessions, cookie, d.csrf, now).sessions)
  {
    var v := Validated(db.sessions, cookie, d.csrf, now);
    var db1 := db.(sessions := v.sessions);
    var rid := TrimSpace(request);
    if v.found.None? then (db1, GoLogin(""))
    else if rid == "" then (db1, Failed(MissingRequest))
    else
      var ar := Taken(db.requests, rid);
      if ar.None? || now > ar.value.expiresAt then (db1, Failed(RequestExpired))
      else if ar.value.clientID !in clients then (db1, Failed(UnknownClient))
      else (db1, ShowConsent(ar.value, v.found.value))
  }

  // handleConsentPost
  function Decided(cfg: Settings, db: Db, cookie: string, csrf: string, request: string, approve: bool, d: Draws,
                   now: int): (r: (Db, Response))
    ensures SameTokens(r.0, db) && r.0.sessions == Validated(db.sessions, cookie, d.csrf, now).sessions
  {
    var v := Validated(db.sessions, cookie, d.csrf, now);
    var db1 := db.(sessions := v.sessions);
    var rid := TrimSpace(request);
    if v.found.None? then (db1, Failed(NotAuthenticated))
    else if csrf == "" || csrf != v.found.value.csrfToken then (db1, Failed(BadCSRF))
    else if rid == "" then (db1, Failed(MissingRequest))
    else Answered(cfg, db1, rid, v.found.value, approve, d.code, now)
  }

  // The request is taken whatever the answer is
  function Answered(cfg: Settings, db: Db, rid: string, s: Session, approve: bool, code: string,
                    now: int): (r: (Db, Response))
    ensures SameTokens(r.0, db) && r.0.sessions == db.sessions && r.0.requests == db.requests - {rid}
  {
    var ar := Taken(db.requests, rid);
    var db1 := db.(requests := db.requests - {rid});
    if ar.None? || now > ar.value.expiresAt then (db1, Failed(RequestExpired))
    else if !approve then (db1, Failed(AccessDenied))
    else Approved(cfg, db1, ar.value, s, code, now)
  }

  // recordConsent, which refuses blank ids, and then issueCodeRedirect
  function Approved(cfg: Settings, db: Db, ar: AuthRequest, s: Session, code: string, now: int): (r: (Db, Response))
    ensures SameTokens(r.0, db) && r.0.sessions == db.sessions && r.0.requests == db.requests
  {
    if s.userID == "" || ar.clientID == "" then (db, Failed(StoreError))
    else CodeIssued(cfg, db.(consents := ConsentRecorded(db.consents, s.userID, ar)), ar, s, code, now)
  }

  function ConsentRecorded(consents: map<string, Consent>, userID: string, ar: AuthRequest): map<string, Consent> {
    var k, want := ConsentKey(userID, ar.clientID), RequestedScopes(ar.scope);
    consents[k := Consent(userID, ar.clientID, if k in consents then MergeScopes(consents[k].scopes, want) else want)]
  }

  function ReAuthed(db: Db, cookie: string, csrf: string, passwordOk: bool, d: Draws, now: int): (r: (Db, Response))
    ensures r.0 == db.(sessions := r.0.sessions)
  {
    var v := Validated(db.sessions, cookie, d.csrf, now);
    var db1 := db.(sessions := v.sessions);
    if v.found.None? then (db1, Failed(NotAuthenticated))
    else if csrf == "" || csrf != v.found.value.csrfToken then (db1, Failed(BadCSRF))
    else if !passwordOk then (db1, Failed(BadCredentials))
    else (db1.(sessions := ReAuthenticated(v.sessions, cookie, now)), Done)
  }

  // handleLocalLogoutPost
  function LoggedOut(db: Db, cookie: string, csrf: string, d: Draws, now: int): (r: (Db, Response))
    ensures r.0 == db.(sessions := r.0.sessions)
  {
    var v := Validated(db.sessions, cookie, d.csrf, now);
    var db1 := db.(sessions := v.sessions);
    if v.found.Some? && (csrf == "" || csrf != v.found.value.csrfToken) then (db1, Failed(BadCSRF))
    else (if cookie == "" then db1 else db1.(sessions := v.sessions - {cookie}), Done)
  }

  // ---- Tokens ----

  // tokenAuthorizationCode, with the refresh part of issueUserTokens
  function Redeemed(cfg: Settings, db: Db, client: Client, code: string, redirectURI: string, verifier: string,
                    d: Draws, now: int): (r: (Db, Response))
    ensures SameFront(r.0, db) && r.0.consumed == db.consumed && r.0.revoked == db.revoked
  {
    var key := Digest(code);
    var ac := Taken(db.codes, key);
    var db1 := db.(codes := db.codes - {key});
    if ac.None? || !Flow.CodeRedeemable(cfg.flow, ac.value, client.id, redirectURI, verifier, now) then
      (db1, Failed(InvalidGrant))
    else
      var c := ac.value;
      if client.allowOffline && OFFLINE_ACCESS in Scopes.Tokens(c.scope) then
        var token := RefreshToken(c.userID, client.id, c.scope, c.authTime, now + cfg.refreshTTL, c.amr, d.family, 0);
        (db1.(refresh := db1.refresh[Digest(d.secret) := token]),
         Granted(c.userID, client.id, c.scope, c.nonce, c.authTime, c.amr, Some(d.secret)))
      else (db1, Granted(c.userID, client.id, c.scope, c.nonce, c.authTime, c.amr, None))
  }

  // RotateRefreshToken, when the old token is there
  function WithRotation(db: Db, key: Digest, r: Rotation): Db {
    db.(refresh := (db.refresh - {key})[r.key := r.next], consumed := db.consumed[key := r.tombstone])
  }

  // tokenRefresh
  function Refreshed(cfg: Settings, db: Db, client: Client, token: string, scope: string, d: Draws,
                     now: int): (r: (Db, Response))
    ensures SameFront(r.0, db) && r.0.codes == db.codes && r.0.revoked == db.revoked
  {
    var key, wanted := Digest(token), TrimSpace(scope);
    if key in db.consumed && !(now > db.consumed[key].expiresAt) then
      (if db.consumed[key].clientID != client.id then db
       else db.(refresh := WithoutFamily(db.refresh, db.consumed[key].familyID)), Failed(InvalidGrant))
    else if key !in db.refresh then (db, Failed(InvalidGrant))
    else
      var prior := db.refresh[key];
      if now > prior.expiresAt then (db.(refresh := db.refresh - {key}), Failed(InvalidGrant))
      else if prior.clientID != client.id then (db, Failed(InvalidGrant))
      else if wanted != "" && !(Scopes.Tokens(wanted) <= Scopes.Tokens(prior.scope)) then (db, Failed(InvalidScope))
      else
        var granted := if wanted == "" then prior.scope else wanted;
        var r := NewRotation(prior, client.id, granted, d.secret, d.family, now, cfg.refreshTTL);
        (WithRotation(db, key, r),
         Granted(prior.userID, client.id, granted, "", prior.authTime, prior.amr, Some(d.secret)))
  }

  // verifyTokenNotRevoked: an expired tombstone is dropped and no longer counts
  function NotRevoked(revoked: map<string, int>, jti: string, now: int): (map<string, int>, bool) {
    if jti == "" || jti !in revoked then (revoked, true)
    else if now > revoked[jti] then (revoked - {jti}, true)
    else (revoked, false)
  }

  predicate JwtExpired(claims: Claims, now: int) {
    claims.exp.Some? && now > claims.exp.value * SECOND + SKEW
  }

  predicate JwtNotActive(claims: Claims, now: int) {
    claims.nbf.Some? && now < claims.nbf.value * SECOND - SKEW
  }

  // verifyJWT
  function Verified(cfg: Settings, revoked: map<string, int>, token: string,
                    now: int): (map<string, int>, Option<Claims>) {
    var claims := cfg.jwt(token);
    if claims.None? || !claims.value.issuerOk || JwtExpired(claims.value, now) || JwtNotActive(claims.value, now) then
      (revoked, None)
    else
      var (left, good) := NotRevoked(revoked, claims.value.jti, now);
      (left, if good then claims else None)
  }

  function RefreshShown(db: Db, token: string, clientID: string, now: int): Response {
    var t := Taken(db.refresh, Digest(token));
    if t.None? || t.value.clientID != clientID || now > t.value.expiresAt then Inactive else ActiveRefresh(t.value)
  }

  function JwtShown(cfg: Settings, db: Db, token: string, clientID: string, now: int): (r: (Db, Response))
    ensures r.0 == db.(revoked := r.0.revoked)
  {
    var (left, claims) := Verified(cfg, db.revoked, token, now);
    (db.(revoked := left),
     if claims.Some? && clientID != "" && clientID in claims.value.holders then ActiveJWT(claims.value) else Inactive)
  }

  // handleIntrospect and introspectToken
  function Introspected(cfg: Settings, db: Db, token: string, hint: string, clientID: string,
                        now: int): (r: (Db, Response))
    ensures r.0 == db.(revoked := r.0.revoked)
  {
    var tok := TrimSpace(token);
    if tok == "" then (db, Inactive)
    else if hint == "refresh_token" && RefreshShown(db, tok, clientID, now).ActiveRefresh? then
      (db, RefreshShown(db, tok, clientID, now))
    else
      var (db1, shown) := JwtShown(cfg, db, tok, clientID, now);
      if hint == "refresh_token" || shown.ActiveJWT? then (db1, shown) else (db1, RefreshShown(db1, tok, clientID, now))
  }

  // revokeRefreshToken
  function RefreshRevoked(refresh: map<Digest, RefreshToken>, token: string,
                          clientID: string): map<Digest, RefreshToken> {
    if token != "" && Digest(token) in refresh && refresh[Digest(token)].clientID == clientID then
      refresh - {Digest(token)}
    else refresh
  }

  // revokeJWT
  function JwtRevoked(cfg: Settings, revoked: map<string, int>, token: string, clientID: string,
                      now: int): map<string, int> {
    var (left, claims) := Verified(cfg, revoked, token, now);
    if claims.None? || claims.value.owner != clientID || claims.value.jti == "" || claims.value.exp.None? then left
    else left[claims.value.jti := claims.value.exp.value * SECOND + SKEW]
  }

  function Revoked(cfg: Settings, db: Db, token: string, clientID: string, now: int): (r: Db)
    ensures r == db.(refresh := r.refresh, revoked := r.revoked)
  {
    db.(refresh := RefreshRevoked(db.refresh, token, clientID),
        revoked := JwtRevoked(cfg, db.revoked, token, clientID, now))
  }

  function InfoShown(cfg: Settings, db: Db, token: string, now: int): (r: (Db, Response))
    ensures r.0 == db.(revoked := r.0.revoked)
  {
    if token == "" then (db, Failed(MissingToken))
    else
      var (left, claims) := Verified(cfg, db.revoked, token, now);
      (db.(revoked := left),
       if claims.Some? && claims.value.access then Profile(claims.value) else Failed(InvalidToken))
  }

  // ---- One call ----

  function Handled(cfg: Settings, clients: map<string, Client>, db: Db, call: Call, d: Draws,
                   now: int): (Db, Response) {
    match call
    case Authorize(q, cookie, allowed) => Authorized(cfg, clients, db, q, cookie, allowed, d, now)
    case LoginPage(request, allowed) => (db, LoginShown(db, request, allowed, now))
    case Login(request, user, allowed) => LoggedIn(cfg, clients, db, request, user, allowed, d, now)
    case ConsentPage(cookie, request) => ConsentShown(clients, db, cookie, request, d, now)
    case Decide(cookie, csrf, request, approve) => Decided(cfg, db, cookie, csrf, request, approve, d, now)
    case Visit(cookie) =>
      var v := Touched(cfg.life, db.sessions, cookie, d.csrf, now);
      (db.(sessions := v.sessions), Home(v.found))
    case Check(cookie) =>
      var v := Validated(db.sessions, cookie, d.csrf, now);
      (db.(sessions := v.sessions), Home(v.found))
    case ReAuth(cookie, csrf, passwordOk) => ReAuthed(db, cookie, csrf, passwordOk, d, now)
    case Logout(cookie, csrf) => LoggedOut(db, cookie, csrf, d, now)
    case Redeem(client, code, redirectURI, verifier) => Redeemed(cfg, db, client, code, redirectURI, verifier, d, now)
    case Refresh(client, token, scope) => Refreshed(cfg, db, client, token, scope, d, now)
    case Introspect(client, token, hint) => Introspected(cfg, db, token, hint, client.id, now)
    case Revoke(client, token) => (Revoked(cfg, db, token, client.id, now), Done)
    case UserInfo(token) => InfoShown(cfg, db, token, now)
  }
}
