/** Authorization requests: which are accepted, what each answer means, how long a request waits for the login or the
    consent, and what the code at the end says (handleAuthorize, handleLoginPost, handleConsentPost). */
module RequestLife {
  import opened Entities
  import opened Scopes
  import opened Consents
  import opened Sessions
  import opened Handlers
  import opened Runs
  import opened CodeLife
  import opened LoginLife
  import Flow = AuthorizationFlow

  // Requests are stored under their own ids
  ghost predicate Keyed(db: Db) {
    forall id :: id in db.requests ==> db.requests[id].id == id
  }

  // The request waits under its id until it expires
  predicate Waits(db: Db, id: string, ar: AuthRequest, now: int) {
    (id in db.requests ==> db.requests[id] == ar) && (now <= ar.expiresAt ==> id in db.requests)
  }

  // The request that a call takes from the store
  function Takes(call: Call): Option<string> {
    if call.Login? then Some(call.request) else if call.Decide? then Some(TrimSpace(call.request)) else None
  }

  // Nobody takes the request, and no draw repeats its id
  predicate Untaken(e: Event, id: string) {
    e.Serve? ==> e.draws.id != id && Takes(e.call) != Some(id)
  }

  predicate SameAt<K, V(==)>(a: map<K, V>, b: map<K, V>, key: K) {
    (key in a <==> key in b) && (key in b ==> a[key] == b[key])
  }

  // ---- What one event does to the requests ----

  lemma ProceedWrites(cfg: Settings, clients: map<string, Client>, db: Db, ar: AuthRequest, s: Session, allowed: bool,
                      code: string, now: int)
    ensures var after := Proceeded(cfg, clients, db, ar, s, allowed, code, now).0.requests;
      after == db.requests || after == db.requests[ar.id := ar.(expiresAt := now + 300 * SECOND)]
  {
    hide ConsentGiven, CodeIssued, SameTokens;
  }

  // The request of an accepted query, as it stands after the call if it stands at all
  function Put(cfg: Settings, clients: map<string, Client>, q: Query, id: string, asked: bool, now: int): AuthRequest {
    var r := Requested(cfg, clients, q, id, now);
    if r.Err? then AuthRequest(id, "", "", "", "", "", "", 0)
    else if asked then r.value.(expiresAt := now + 300 * SECOND) else r.value
  }

  lemma PutUnderItsId(cfg: Settings, clients: map<string, Client>, q: Query, id: string, asked: bool, now: int)
    ensures Put(cfg, clients, q, id, asked, now).id == id
  {
    hide AuthorizationScope, Flow.PKCEAcceptable;
  }

  lemma AuthorizeWrites(cfg: Settings, clients: map<string, Client>, db: Db, q: Query, cookie: string, allowed: bool,
                        d: Draws, now: int) returns (ar: AuthRequest)
    ensures var after := Authorized(cfg, clients, db, q, cookie, allowed, d, now).0.requests;
      after == db.requests || (after == db.requests[d.id := ar] && ar.id == d.id)
  {
    hide Prompted, Validated, Touched, Proceeded, Requested, SameTokens, Put;
    var after := Authorized(cfg, clients, db, q, cookie, allowed, d, now).0.requests;
    var asked := after == db.requests[d.id := Put(cfg, clients, q, d.id, true, now)];
    ar := Put(cfg, clients, q, d.id, asked, now);
    PutUnderItsId(cfg, clients, q, d.id, asked, now);
    AuthorizePuts(cfg, clients, db, q, cookie, allowed, d, now);
  }

  lemma AuthorizePuts(cfg: Settings, clients: map<string, Client>, db: Db, q: Query, cookie: string, allowed: bool,
                      d: Draws, now: int)
    ensures var after := Authorized(cfg, clients, db, q, cookie, allowed, d, now).0.requests;
      || after == db.requests || after == db.requests[d.id := Put(cfg, clients, q, d.id, true, now)]
      || after == db.requests[d.id := Put(cfg, clients, q, d.id, false, now)]
  {
    hide Prompted, Validated, Touched, Proceeded, Requested, SameTokens;
    PutUnderItsId(cfg, clients, q, d.id, false, now);
    var r, v := Requested(cfg, clients, q, d.id, now), Validated(db.sessions, cookie, d.csrf, now);
    if r.Ok? && v.found.Some? {
      var touched := db.(sessions := Touched(cfg.life, v.sessions, cookie, d.csrf, now).sessions);
      ProceedWrites(cfg, clients, touched, r.value, v.found.value, allowed, d.code, now);
    }
  }

  lemma LoginWrites(cfg: Settings, clients: map<string, Client>, db: Db, request: string,
                    user: Option<(string, seq<string>)>, allowed: bool, d: Draws, now: int) returns (ar: AuthRequest)
    requires Keyed(db)
    ensures var after := LoggedIn(cfg, clients, db, request, user, allowed, d, now).0.requests;
      || after == db.requests || after == db.requests - {request}
      || (after == (db.requests - {request})[request := ar] && ar.id == request)
  {
    hide Proceeded, Opened, SameTokens, LoggedIn;
    LoginCases(cfg, clients, db, request, user, allowed, d, now);
    ar := AuthRequest(request, "", "", "", "", "", "", 0);
    if request in db.requests {
      ar := db.requests[request];
      if user.Some? && !(now > ar.expiresAt) && request != "" {
        var s := Opened(cfg.life, user.value.0, true, user.value.1, d.csrf, now);
        var taken := db.(requests := db.requests - {request}, sessions := db.sessions[d.sid := s]);
        ProceedWrites(cfg, clients, taken, ar, s, allowed, d.code, now);
        ar := ar.(expiresAt := now + 300 * SECOND);
      }
    }
  }

  lemma DecideWrites(cfg: Settings, db: Db, cookie: string, csrf: string, request: string, approve: bool, d: Draws,
                     now: int)
    ensures var after := Decided(cfg, db, cookie, csrf, request, approve, d, now).0.requests;
      after == db.requests || after == db.requests - {TrimSpace(request)}
  {
    hide Validated, TrimSpace, Answered;
  }

  lemma ServeWrites(cfg: Settings, clients: map<string, Client>, db: Db, call: Call, d: Draws, now: int, id: string)
    requires Keyed(db)
    ensures Keyed(Handled(cfg, clients, db, call, d, now).0)
    ensures d.id != id && Takes(call) != Some(id) ==>
              SameAt(Handled(cfg, clients, db, call, d, now).0.requests, db.requests, id)
  {
    hide Authorized, LoggedIn, Decided, TrimSpace, SameTokens;
    match call
    case Authorize(q, cookie, allowed) =>
      var _ := AuthorizeWrites(cfg, clients, db, q, cookie, allowed, d, now);
    case Login(request, user, allowed) =>
      var _ := LoginWrites(cfg, clients, db, request, user, allowed, d, now);
    case Decide(cookie, csrf, request, approve) =>
      DecideWrites(cfg, db, cookie, csrf, request, approve, d, now);
    case _ =>
      hide Handled;
      OthersWriteNothing(cfg, clients, db, call, d, now);
  }

  lemma OthersWriteNothing(cfg: Settings, clients: map<string, Client>, db: Db, call: Call, d: Draws, now: int)
    requires !call.Authorize? && !call.Login? && !call.Decide?
    ensures Handled(cfg, clients, db, call, d, now).0.requests == db.requests
    ensures Handled(cfg, clients, db, call, d, now).0.consents == db.consents
  {
    hide Refreshed, Redeemed, Introspected, InfoShown, Revoked, LoginShown, ConsentShown, ReAuthed, LoggedOut;
    hide Validated, Touched;
  }

  lemma SweepWaits(db: Db, reading: int, id: string, ar: AuthRequest, now: int)
    requires Waits(db, id, ar, now) && reading <= now && Keyed(db)
    ensures Waits(SweptDb(db, reading), id, ar, now) && Keyed(SweptDb(db, reading))
  {
  }

  lemma {:induction false} RunWaits(cfg: Settings, db: Db, now: int, events: seq<Event>, later: int, id: string,
                                    ar: AuthRequest)
    requires Keyed(db) && Waits(db, id, ar, now) && Between(now, events, later)
    requires forall e :: e in events ==> Untaken(e, id)
    ensures Keyed(After(cfg, db, events)) && Waits(After(cfg, db, events), id, ar, later)
    decreases |events|
  {
    hide Handled, SweptDb, Keyed, TrimSpace;
    if events != [] {
      var e := events[0];
      assert Untaken(e, id);
      if e.Serve? {
        ServeWrites(cfg, e.clients, db, e.call, e.draws, e.at, id);
      } else {
        SweepWaits(db, e.reading, id, ar, e.at);
      }
      RunWaits(cfg, Next(cfg, db, e), e.at, events[1..], later, id, ar);
    }
  }

  // ---- Going on after the login ----

  // A consent of this user for this client covers the scope
  predicate Remembered(consents: map<string, Consent>, userID: string, clientID: string, scope: string) {
    var key := userID + "|" + clientID;
    key in consents && forall w :: w in Tokens(scope) ==> w in consents[key].scopes
  }

  lemma ConsentGivenIsRemembered(consents: map<string, Consent>, userID: string, clientID: string, scope: string)
    ensures ConsentGiven(consents, userID, clientID, scope) <==> Remembered(consents, userID, clientID, scope)
  {
    hide Tokens, RequestedScopes;
    RequestedScopesAre(scope);
  }

  // The code that a request and a login lead to
  function CodeOf(cfg: Settings, ar: AuthRequest, userID: string, authTime: int, amr: seq<string>, now: int): AuthCode {
    AuthCode(userID := userID, authTime := authTime, amr := amr, clientID := ar.clientID, redirectURI := ar.redirectURI,
             scope := ar.scope, nonce := ar.nonce, codeChallenge := ar.codeChallenge,
             codeChallengeMethod := ar.codeChallengeMethod, expiresAt := now + cfg.flow.codeTTL)
  }

  // The client is sent a code that is in the store
  predicate Minted(cfg: Settings, r: (Db, Handlers.Response), ar: AuthRequest, userID: string, authTime: int,
                   amr: seq<string>, code: string, now: int) {
    && r.1 == GoClient(ar.redirectURI, code) && Digest(code) in r.0.codes
    && r.0.codes[Digest(code)] == CodeOf(cfg, ar, userID, authTime, amr, now)
  }

  // The user is sent to the consent page, and the request waits for five minutes
  predicate Asked(r: (Db, Handlers.Response), ar: AuthRequest, now: int) {
    r.1 == GoConsent(ar.id) && Waits(r.0, ar.id, ar.(expiresAt := now + 300 * SECOND), now)
  }

  // No consent is needed, or it was given before
  predicate Cleared(clients: map<string, Client>, consents: map<string, Consent>, userID: string, ar: AuthRequest) {
    && ar.clientID in clients
    && (!clients[ar.clientID].requireConsent || Remembered(consents, userID, ar.clientID, ar.scope))
  }

  lemma IssueMints(cfg: Settings, db: Db, ar: AuthRequest, s: Session, code: string, now: int)
    ensures Minted(cfg, CodeIssued(cfg, db, ar, s, code, now), ar, s.userID, s.authTime, s.amr, code, now)
  {
  }

  /** proceedAfterAuthn issues a code exactly when no consent is needed or a recorded one covers every scope; the code
      carries the request and the login. Otherwise the user is asked, unless too many requests are stored. */
  lemma ProceedAnswers(cfg: Settings, clients: map<string, Client>, db: Db, ar: AuthRequest, s: Session, allowed: bool,
                       code: string, now: int)
    ensures var r := Proceeded(cfg, clients, db, ar, s, allowed, code, now);
      if ar.clientID !in clients then r == (db, Failed(UnknownClient))
      else if Cleared(clients, db.consents, s.userID, ar) then
        Minted(cfg, r, ar, s.userID, s.authTime, s.amr, code, now)
      else if allowed then Asked(r, ar, now)
      else r == (db, Failed(TooManyRequests))
  {
    hide ConsentGiven, Remembered, SameTokens, SameFront, CodeIssued;
    ConsentGivenIsRemembered(db.consents, s.userID, ar.clientID, ar.scope);
    IssueMints(cfg, db, ar, s, code, now);
  }

  /** A login to a live request with good credentials goes on as that user, authenticated at that moment. */
  lemma LoginAnswers(cfg: Settings, clients: map<string, Client>, db: Db, request: string, userID: string,
                     amr: seq<string>, allowed: bool, d: Draws, now: int)
    requires request != "" && request in db.requests && now <= db.requests[request].expiresAt
    ensures var r := Handled(cfg, clients, db, Login(request, Some((userID, amr)), allowed), d, now);
      var ar := db.requests[request];
      if ar.clientID !in clients then r.1 == Failed(UnknownClient)
      else if Cleared(clients, db.consents, userID, ar) then Minted(cfg, r, ar, userID, now, amr, d.code, now)
      else if allowed then Asked(r, ar, now)
      else r.1 == Failed(TooManyRequests)
  {
    hide Proceeded, Cleared, Minted, Asked, LoggedIn, SameTokens;
    LoginCases(cfg, clients, db, request, Some((userID, amr)), allowed, d, now);
    var s := Opened(cfg.life, userID, true, amr, d.csrf, now);
    ProceedAnswers(cfg, clients, db.(requests := db.requests - {request}, sessions := db.sessions[d.sid := s]),
                   db.requests[request], s, allowed, d.code, now);
  }

  // ---- Authorize ----

  // PKCE is used with S256 or not at all, and it is used where the client must use it
  predicate GoodChallenge(client: Client, challenge: string, challengeMethod: string) {
    if challenge == "" then !client.isPublic && !client.requirePKCE
    else challengeMethod == "" || challengeMethod == "S256"
  }

  // A registered client, one of its addresses, scopes it may ask for
  predicate Acceptable(clients: map<string, Client>, q: Query) {
    && q.clientID in clients && q.redirectURI in clients[q.clientID].redirectURIs
    && (forall w :: w in Tokens(q.scope) ==> MayAsk(clients[q.clientID], w))
    && GoodChallenge(clients[q.clientID], q.challenge, q.challengeMethod)
  }

  // What is stored of the query
  predicate Describes(cfg: Settings, clients: map<string, Client>, q: Query, ar: AuthRequest, now: int)
    requires q.clientID in clients
  {
    && ar.clientID == clients[q.clientID].id && ar.redirectURI == q.redirectURI && Tokens(ar.scope) == Tokens(q.scope)
    && ar.nonce == q.nonce && ar.codeChallenge == q.challenge && ar.expiresAt == now + cfg.flow.codeTTL
    && (q.challenge != "" ==> ar.codeChallengeMethod == "S256")
  }

  lemma RequestedExactly(cfg: Settings, clients: map<string, Client>, q: Query, id: string, now: int)
    ensures Requested(cfg, clients, q, id, now).Ok? <==> Acceptable(clients, q)
    ensures Requested(cfg, clients, q, id, now).Ok? ==>
              var ar := Requested(cfg, clients, q, id, now).value;
              ar.id == id && Describes(cfg, clients, q, ar, now)
  {
    hide AuthorizationScope, MayAsk, Tokens;
    if q.clientID in clients {
      AuthorizationScopeExact(clients[q.clientID], q.scope);
    }
  }

  // The query's prompt contradicts itself, or its max_age cannot be read
  predicate Malformed(q: Query) {
    q.maxAge.Malformed? || ("none" in Tokens(q.prompt) && exists w :: w in Tokens(q.prompt) && w != "none")
  }

  // The visitor's login will do: none is asked for, and it is recent enough
  predicate Suffices(q: Query, s: Session, now: int) {
    "login" !in Tokens(q.prompt) && (q.maxAge.Seconds? ==> now <= s.authTime + q.maxAge.n * SECOND)
  }

  // The visitor whose login will do
  function Known(db: Db, q: Query, cookie: string, csrf: string, now: int): Option<Session> {
    var visitor := Visitor(db, cookie, csrf, now);
    if visitor.Some? && Suffices(q, visitor.value, now) then visitor else None
  }

  lemma PromptAnswers(consents: map<string, Consent>, q: Query, scope: string, client: Client, s: Option<Session>,
                      now: int)
    ensures Prompted(consents, q, scope, client, s, now) ==
            if Malformed(q) then Refuse(InvalidRequest)
            else if "none" !in Tokens(q.prompt) then
              Proceed("login" in Tokens(q.prompt) || (s.Some? && !Suffices(q, s.value, now)))
            else if s.None? || !Suffices(q, s.value, now) then Refuse(LoginRequired)
            else if client.requireConsent && !Remembered(consents, s.value.userID, client.id, scope) then
              Refuse(ConsentRequired)
            else Proceed(false)
  {
    hide Tokens, Remembered, ConsentGiven;
    if s.Some? {
      ConsentGivenIsRemembered(consents, s.value.userID, client.id, scope);
    }
    var prompts := Tokens(q.prompt);
    if "none" in prompts && !(exists w :: w in prompts && w != "none") {
      assert prompts == {"none"};
    }
  }

  // What an acceptable query is answered, by what is known of the visitor
  predicate RightAnswer(cfg: Settings, clients: map<string, Client>, db: Db, q: Query, ar: AuthRequest,
                        known: Option<Session>, allowed: bool, code: string, now: int, r: (Db, Handlers.Response)) {
    if Malformed(q) then r.1 == Failed(InvalidRequest)
    else if known.None? then
      if "none" in Tokens(q.prompt) then r.1 == Failed(LoginRequired)
      else if allowed then r.1 == GoLogin(ar.id) && Waits(r.0, ar.id, ar, now) && ar.id in r.0.requests
      else r.1 == Failed(TooManyRequests)
    else if Cleared(clients, db.consents, known.value.userID, ar) then
      Minted(cfg, r, ar, known.value.userID, known.value.authTime, known.value.amr, code, now)
    else if "none" in Tokens(q.prompt) then r.1 == Failed(ConsentRequired)
    else if allowed then Asked(r, ar, now)
    else r.1 == Failed(TooManyRequests)
  }

  /** handleAuthorize: a query that is not acceptable fails and changes nothing. Otherwise a code is issued at once
      exactly when the visitor's login will do and no consent is missing; it carries that login. A query with
      prompt=none is never sent to a page, and prompt=login or a login older than max_age never leads to a code. */
  lemma AuthorizeAnswers(cfg: Settings, clients: map<string, Client>, db: Db, q: Query, cookie: string, allowed: bool,
                         d: Draws, now: int)
    requires q.clientID in clients ==> clients[q.clientID].id == q.clientID
    ensures var r := Handled(cfg, clients, db, Authorize(q, cookie, allowed), d, now);
      if !Acceptable(clients, q) then r.1.Failed? && r.0 == db
      else
        && Requested(cfg, clients, q, d.id, now).Ok?
        && var ar := Requested(cfg, clients, q, d.id, now).value;
           && ar.id == d.id && Describes(cfg, clients, q, ar, now)
           && RightAnswer(cfg, clients, db, q, ar, Known(db, q, cookie, d.csrf, now), allowed, d.code, now, r)
  {
    hide Requested, Acceptable, Describes, Prompted, Validated, Touched, Proceeded, Visitor, Malformed, Tokens,
      Remembered, Minted, SameTokens;
    RequestedExactly(cfg, clients, q, d.id, now);
    if Acceptable(clients, q) {
      assert q.clientID in clients by { AcceptableIsRegistered(clients, q); }
      VisitorIsValid(db, cookie, d.csrf, now);
      var ar, v := Requested(cfg, clients, q, d.id, now).value, Validated(db.sessions, cookie, d.csrf, now);
      assert ar.clientID == q.clientID by { DescribesClient(cfg, clients, q, ar, now); }
      PromptAnswers(db.consents, q, ar.scope, clients[q.clientID], v.found, now);
      if v.found.Some? {
        ProceedAnswers(cfg, clients, db.(sessions := Touched(cfg.life, v.sessions, cookie, d.csrf, now).sessions), ar,
                       v.found.value, allowed, d.code, now);
      }
    }
  }

  lemma AcceptableIsRegistered(clients: map<string, Client>, q: Query)
    requires Acceptable(clients, q)
    ensures q.clientID in clients
  {
  }

  lemma DescribesClient(cfg: Settings, clients: map<string, Client>, q: Query, ar: AuthRequest, now: int)
    requires q.clientID in clients && Describes(cfg, clients, q, ar, now)
    ensures ar.clientID == clients[q.clientID].id
  {
  }

  /** A visitor whose login will do is renewed as by a visit, unless the query is refused. */
  lemma AuthorizeRenews(cfg: Settings, clients: map<string, Client>, db: Db, q: Query, cookie: string, allowed: bool,
                        d: Draws, now: int)
    requires q.clientID in clients ==> clients[q.clientID].id == q.clientID
    requires Acceptable(clients, q) && Known(db, q, cookie, d.csrf, now).Some? && db.sessions[cookie].csrfToken != ""
    requires var r := Handled(cfg, clients, db, Authorize(q, cookie, allowed), d, now).1; r.GoClient? || r.GoConsent?
    ensures var r := Handled(cfg, clients, db, Authorize(q, cookie, allowed), d, now).0; var s := db.sessions[cookie];
      cookie in r.sessions && r.sessions[cookie] == s.(expiresAt := EndAfterVisit(cfg.life, s, now))
  {
    hide Requested, Acceptable, Prompted, Touched, Proceeded, Tokens, EndAfterVisit, SameTokens;
    VisitorIsValid(db, cookie, d.csrf, now);
    TouchRenews(cfg.life, db.sessions, cookie, d.csrf, now);
  }

  // ---- Consent ----

  // A visitor who sends the session's CSRF token answers a live request
  function Answerable(db: Db, cookie: string, csrf: string, request: string, drawn: string,
                      now: int): Option<AuthRequest> {
    var visitor, rid := Visitor(db, cookie, drawn, now), TrimSpace(request);
    if visitor.Some? && csrf != "" && csrf == visitor.value.csrfToken && rid != "" && rid in db.requests &&
      now <= db.requests[rid].expiresAt
    then Some(db.requests[rid]) else None
  }

  lemma ApprovalRecords(consents: map<string, Consent>, userID: string, ar: AuthRequest)
    ensures Remembered(ConsentRecorded(consents, userID, ar), userID, ar.clientID, ar.scope)
    ensures forall u, c, scope :: Remembered(consents, u, c, scope) ==>
              Remembered(ConsentRecorded(consents, userID, ar), u, c, scope)
  {
    hide Tokens, RequestedScopes, MergeScopes;
    var k, want := ConsentKey(userID, ar.clientID), RequestedScopes(ar.scope);
    RequestedScopesAre(ar.scope);
    if k in consents {
      MergeScopesIsUnion(consents[k].scopes, want);
    }
  }

  // The outcome of an approval
  predicate ApprovalTakes(cfg: Settings, db: Db, ar: AuthRequest, s: Session, code: string, now: int,
                          r: (Db, Handlers.Response)) {
    if s.userID == "" || ar.clientID == "" then
      r.1 == Failed(StoreError) && r.0.codes == db.codes && r.0.consents == db.consents
    else
      && Minted(cfg, r, ar, s.userID, s.authTime, s.amr, code, now)
      && r.0.consents == ConsentRecorded(db.consents, s.userID, ar)
      && Remembered(r.0.consents, s.userID, ar.clientID, ar.scope)
  }

  lemma ApprovedAnswers(cfg: Settings, db: Db, ar: AuthRequest, s: Session, code: string, now: int)
    ensures ApprovalTakes(cfg, db, ar, s, code, now, Approved(cfg, db, ar, s, code, now))
  {
    hide ConsentRecorded, Remembered;
    ApprovalRecords(db.consents, s.userID, ar);
  }

  /** handleConsentPost issues a code exactly when the visitor approves a live request with the session's CSRF token;
      the code carries the visitor's login, and the approval covers the request's scopes from then on. A denied
      request is gone. */
  lemma DecideAnswers(cfg: Settings, clients: map<string, Client>, db: Db, cookie: string, csrf: string,
                      request: string, approve: bool, d: Draws, now: int)
    ensures var r := Handled(cfg, clients, db, Decide(cookie, csrf, request, approve), d, now);
      var ar := Answerable(db, cookie, csrf, request, d.csrf, now);
      if ar.None? then r.1.Failed? && r.0.codes == db.codes && r.0.consents == db.consents
      else
        && TrimSpace(request) !in r.0.requests
        && (if approve then
              ApprovalTakes(cfg, db, ar.value, Visitor(db, cookie, d.csrf, now).value, d.code, now, r)
            else r.1 == Failed(AccessDenied) && r.0.codes == db.codes && r.0.consents == db.consents)
  {
    hide TrimSpace, Validated, Visitor, Approved, Minted, Remembered, ConsentRecorded, SameTokens;
    VisitorIsValid(db, cookie, d.csrf, now);
    var v, rid := Validated(db.sessions, cookie, d.csrf, now), TrimSpace(request);
    if v.found.Some? && rid in db.requests {
      ApprovedAnswers(cfg, db.(sessions := v.sessions, requests := db.requests - {rid}), db.requests[rid],
                      v.found.value, d.code, now);
    }
  }

  lemma ServeRemembers(cfg: Settings, clients: map<string, Client>, db: Db, call: Call, d: Draws, now: int,
                       userID: string, clientID: string, scope: string)
    requires Remembered(db.consents, userID, clientID, scope)
    ensures Remembered(Handled(cfg, clients, db, call, d, now).0.consents, userID, clientID, scope)
  {
    hide Remembered, Authorized, LoggedIn, Decided, SameTokens;
    match call
    case Authorize(q, cookie, allowed) => AuthorizeKeepsConsents(cfg, clients, db, q, cookie, allowed, d, now);
    case Login(request, user, allowed) => LoginKeepsConsents(cfg, clients, db, request, user, allowed, d, now);
    case Decide(cookie, csrf, request, approve) =>
      DecideRemembers(cfg, db, cookie, csrf, request, approve, d, now, userID, clientID, scope);
    case _ =>
      hide Handled;
      OthersWriteNothing(cfg, clients, db, call, d, now);
  }

  lemma DecideRemembers(cfg: Settings, db: Db, cookie: string, csrf: string, request: string, approve: bool, d: Draws,
                        now: int, userID: string, clientID: string, scope: string)
    requires Remembered(db.consents, userID, clientID, scope)
    ensures Remembered(Decided(cfg, db, cookie, csrf, request, approve, d, now).0.consents, userID, clientID, scope)
  {
    hide Remembered, Decided, TrimSpace, Visitor, ConsentRecorded, Minted;
    DecideAnswers(cfg, map[], db, cookie, csrf, request, approve, d, now);
    var ar := Answerable(db, cookie, csrf, request, d.csrf, now);
    if ar.Some? {
      ApprovalRecords(db.consents, Visitor(db, cookie, d.csrf, now).value.userID, ar.value);
    }
  }

  lemma AuthorizeKeepsConsents(cfg: Settings, clients: map<string, Client>, db: Db, q: Query, cookie: string,
                               allowed: bool, d: Draws, now: int)
    ensures Authorized(cfg, clients, db, q, cookie, allowed, d, now).0.consents == db.consents
  {
    hide Requested, Prompted, Validated, Touched, Proceeded;
  }

  lemma LoginKeepsConsents(cfg: Settings, clients: map<string, Client>, db: Db, request: string,
                           user: Option<(string, seq<string>)>, allowed: bool, d: Draws, now: int)
    ensures LoggedIn(cfg, clients, db, request, user, allowed, d, now).0.consents == db.consents
  {
    hide Opened, Proceeded, SameTokens, LoggedIn;
    LoginCases(cfg, clients, db, request, user, allowed, d, now);
  }

  /** What a user has approved for a client stays approved, whatever calls and sweeps follow: no request within those
      scopes is asked about again. */
  lemma {:induction false} ConsentIsRemembered(cfg: Settings, db: Db, events: seq<Event>, userID: string,
                                               clientID: string, scope: string)
    requires Remembered(db.consents, userID, clientID, scope)
    ensures Remembered(After(cfg, db, events).consents, userID, clientID, scope)
    decreases |events|
  {
    hide Handled, Remembered;
    if events != [] {
      var e := events[0];
      if e.Serve? {
        ServeRemembers(cfg, e.clients, db, e.call, e.draws, e.at, userID, clientID, scope);
      }
      ConsentIsRemembered(cfg, Next(cfg, db, e), events[1..], userID, clientID, scope);
    }
  }

  // ---- The pages ----

  /** The consent page shows a request to a visitor exactly when the visitor's answer would be heard at that moment. */
  lemma ConsentPageIsAnswerable(cfg: Settings, clients: map<string, Client>, db: Db, cookie: string, request: string,
                                d: Draws, now: int)
    requires d.csrf != ""
    ensures var r := Handled(cfg, clients, db, ConsentPage(cookie, request), d, now).1;
      var visitor := Visitor(db, cookie, d.csrf, now);
      if visitor.None? then r == GoLogin("")
      else
        var ar := Answerable(db, cookie, visitor.value.csrfToken, request, d.csrf, now);
        if ar.Some? && ar.value.clientID in clients then r == ShowConsent(ar.value, visitor.value) else r.Failed?
  {
    hide TrimSpace, Validated;
    VisitorIsValid(db, cookie, d.csrf, now);
  }

  /** The login page is shown for a request exactly when a login to it would not be refused as expired. */
  lemma LoginPageIsOpen(cfg: Settings, clients: map<string, Client>, db: Db, request: string, d: Draws, now: int)
    ensures var r := Handled(cfg, clients, db, LoginPage(request, true), d, now).1;
      && (r.ShowLogin? <==> LoginOpen(db, request, now))
      && (r.ShowLogin? <==> Handled(cfg, clients, db, Login(request, None, true), d, now).1 == Failed(BadCredentials))
      && (request != "" && LoginOpen(db, request, now) ==> r == ShowLogin(db.requests[request].clientID))
  {
    hide Proceeded, Opened, LoggedIn, SameTokens;
    LoginCases(cfg, clients, db, request, None, true, d, now);
  }

  // ---- From the query to the tokens ----

  /** The whole sign-in: a query that is sent to the login page, a login within the lifetime of the request and a
      redemption within the lifetime of the code give tokens that name the user, the moment and the means of the login
      and the nonce and the scopes of the query; they go to nobody but the query's client at the query's address with
      the verifier of the query's challenge. Any calls and sweeps may come in between. */
  lemma SignInRoundTrip(cfg: Settings, db: Db, clients: map<string, Client>, q: Query, cookie: string, d0: Draws,
                        t0: int, before: seq<Event>, now: map<string, Client>, userID: string, amr: seq<string>,
                        d1: Draws, t1: int, after: seq<Event>, client: Client, redirectURI: string, verifier: string,
                        d2: Draws, t2: int)
    requires Keyed(db) && q.clientID in clients && clients[q.clientID].id == q.clientID && d0.id != ""
    requires Handled(cfg, clients, db, Authorize(q, cookie, true), d0, t0).1.GoLogin?
    requires Between(t0, before, t1) && forall e :: e in before ==> Untaken(e, d0.id)
    requires t1 <= t0 + cfg.flow.codeTTL && q.clientID in now && !now[q.clientID].requireConsent
    requires Between(t1, after, t2) && forall e :: e in after ==> Unpresented(e, d1.code)
    ensures var waiting := After(cfg, Handled(cfg, clients, db, Authorize(q, cookie, true), d0, t0).0, before);
      var r := Handled(cfg, now, waiting, Login(d0.id, Some((userID, amr)), true), d1, t1);
      && r.1 == GoClient(q.redirectURI, d1.code)
      && var redeem := Redeem(client, d1.code, redirectURI, verifier);
         var s := Handled(cfg, now, After(cfg, r.0, after), redeem, d2, t2).1;
         && (s.Granted? <==>
               && t2 <= t1 + cfg.flow.codeTTL && client.id == q.clientID && redirectURI == q.redirectURI
               && (q.challenge != "" ==> WellFormedVerifier(verifier) && cfg.flow.s256(verifier) == q.challenge))
         && (s.Granted? ==>
               && s.userID == userID && s.authTime == t1 && s.amr == amr && s.nonce == q.nonce
               && s.clientID == q.clientID && Tokens(s.scope) == Tokens(q.scope)
               && (s.refreshToken.Some? <==> client.allowOffline && "offline_access" in Tokens(q.scope)))
  {
    hide Authorized, LoggedIn, Redeemed, After, Between, Requested, Acceptable, Tokens, Remembered, Malformed,
      WellFormedVerifier, Keyed, Stored, Visitor, Known;
    AuthorizeAnswers(cfg, clients, db, q, cookie, true, d0, t0);
    var start := Authorized(cfg, clients, db, q, cookie, true, d0, t0).0;
    var ar := Requested(cfg, clients, q, d0.id, t0).value;
    ServeKeyed(cfg, clients, db, q, cookie, d0, t0);
    RunWaits(cfg, start, t0, before, t1, d0.id, ar);
    var waiting := After(cfg, start, before);
    LoginAnswers(cfg, now, waiting, d0.id, userID, amr, true, d1, t1);
    var r := LoggedIn(cfg, now, waiting, d0.id, Some((userID, amr)), true, d1, t1);
    var code := CodeOf(cfg, ar, userID, t1, amr, t1);
    assert Stored(r.0, Digest(d1.code), code, t1) by { StoredNow(r.0, Digest(d1.code), t1); }
    CodeLasts(cfg, now, r.0, d1.code, code, t1, after, client, redirectURI, verifier, d2, t2);
  }

  lemma StoredNow(db: Db, key: Digest, now: int)
    requires key in db.codes
    ensures Stored(db, key, db.codes[key], now)
  {
  }

  lemma ServeKeyed(cfg: Settings, clients: map<string, Client>, db: Db, q: Query, cookie: string, d: Draws, now: int)
    requires Keyed(db)
    ensures Keyed(Authorized(cfg, clients, db, q, cookie, true, d, now).0)
  {
    hide Authorized;
    var _ := AuthorizeWrites(cfg, clients, db, q, cookie, true, d, now);
  }
}
