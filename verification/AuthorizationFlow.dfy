/** The authorization-code flow under concurrency: authorize, login, consent, code and redemption.
    Each bbolt transaction, registry lookup and clock reading of the handlers is one step. What the
    flow takes from elsewhere (the session that was found, the outcome of a login) is a step parameter. */
module AuthorizationFlow {
  import opened Entities
  import opened Transactions
  import opened Scopes
  import opened Consents

  // What the operator and the libraries fix: every client id ever registered, and the PKCE hash
  datatype Config = Config(clientIds: set<string>, s256: string -> string, codeTTL: int)

  // The part of a session that reaches a code
  datatype Login = Login(userID: string, authTime: int, amr: seq<string>)

  // A request in flight, by the next thing it will do
  datatype Proc =
    | Putting(ar: AuthRequest)                                                        // PutAuthRequest
    | Proceeding(ar: AuthRequest, login: Login)                                       // lookupClient for consent
    | ReadingConsent(ar: AuthRequest, login: Login)                                   // GetConsent
    | Deciding(ar: AuthRequest, login: Login, found: Option<Consent>)                 // consentCovers, or re-stash
    | LoggingIn(ar: AuthRequest)                                                      // clock, credentials
    | Confirming(ar: AuthRequest, login: Login)                                       // clock, the user's decision
    | Approving(ar: AuthRequest, login: Login)                                        // GetConsent before the merge
    | Recording(ar: AuthRequest, login: Login, merged: seq<string>)                   // PutConsent
    | Issuing(ar: AuthRequest, login: Login, consented: bool)                         // draw the code
    | StoringCode(ar: AuthRequest, key: Digest, code: AuthCode, consented: bool)      // PutAuthCode
    | Redeeming(client: Client, redirectURI: string, verifier: string, key: Digest, code: AuthCode) // clock, checks

  // What the browser asked for, with the client as it was registered then
  datatype Origin = Origin(client: Client, redirectURI: string, scope: string, nonce: string,
                           codeChallenge: string, codeChallengeMethod: string)

  datatype Issue = Issue(request: string, code: AuthCode, consented: bool)

  // A successful code grant: who redeemed what, and whether a refresh token comes with it
  datatype Grant = Grant(key: Digest, client: Client, redirectURI: string, verifier: string, code: AuthCode,
                         refresh: bool)

  datatype Approval = Approval(userID: string, clientID: string, scope: string)

  // The client that proceedAfterAuthn looked up for a request, as it was registered then
  datatype Lookup = Lookup(request: string, client: Client)

  /** What has ever happened; nothing here is part of the program's own state. */
  datatype History = History(
    origin: map<string, Origin>,    // every authorization request ever accepted
    spent: set<string>,             // requests that led to a code
    issued: map<Digest, Issue>,     // every code ever stored
    attempted: set<Digest>,         // every stored code that was ever presented
    approvals: set<Approval>,       // every scope ever approved on the consent page
    grants: seq<Grant>
  )

  datatype State = State(
    clients: map<string, Client>,
    requests: map<string, AuthRequest>,
    consents: map<string, Consent>,
    codes: map<Digest, AuthCode>,
    procs: map<nat, Proc>,
    drawn: set<string>,
    lookups: set<Lookup>,           // history as well: every client that proceedAfterAuthn looked up
    past: History
  )

  datatype Action =
    | Register(client: Client)
    | Deregister(id: string)
    | DropConsents(id: string)
    | SweepRequests(now: int)
    | SweepCodes(now: int)
    | Abort(h: nat)
    | Authorize(h: nat, clientID: string, redirectURI: string, scope: string, nonce: string, challenge: string,
                challengeMethod: string, session: Option<Login>, id: string, now: int)
    | Put(h: nat)
    | ConsumeForLogin(h: nat, id: string)
    | LoginFails(h: nat, now: int)
    | LoginSucceeds(h: nat, login: Login, now: int)
    | Proceed(h: nat)
    | ReadConsent(h: nat)
    | Decide(h: nat, now: int)
    | ConsumeForConsent(h: nat, login: Login, id: string)
    | Approve(h: nat, now: int)
    | ReadExisting(h: nat)
    | RecordConsent(h: nat)
    | DrawCode(h: nat, secret: string, now: int)
    | StoreCode(h: nat)
    | Redeem(h: nat, client: Client, code: string, redirectURI: string, verifier: string)
    | CheckCode(h: nat, now: int)

  predicate At(s: State, h: nat) {
    h in s.procs
  }

  predicate Fresh(s: State, secret: string) {
    Base64Url(secret) && secret !in s.drawn
  }

  predicate Enabled(cfg: Config, s: State, a: Action) {
    match a
    case Register(client) => client.id in cfg.clientIds
    case Deregister(_) => true
    case DropConsents(_) => true
    case SweepRequests(_) => true
    case SweepCodes(_) => true
    case Abort(h) => At(s, h)
    case Authorize(h, _, _, _, _, _, _, _, id, _) => !At(s, h) && Fresh(s, id)
    case Put(h) => At(s, h) && s.procs[h].Putting?
    case ConsumeForLogin(h, _) => !At(s, h)
    case LoginFails(h, _) => At(s, h) && s.procs[h].LoggingIn?
    case LoginSucceeds(h, _, _) => At(s, h) && s.procs[h].LoggingIn?
    case Proceed(h) => At(s, h) && s.procs[h].Proceeding?
    case ReadConsent(h) => At(s, h) && s.procs[h].ReadingConsent?
    case Decide(h, _) => At(s, h) && s.procs[h].Deciding?
    case ConsumeForConsent(h, _, _) => !At(s, h)
    case Approve(h, _) => At(s, h) && s.procs[h].Confirming?
    case ReadExisting(h) => At(s, h) && s.procs[h].Approving?
    case RecordConsent(h) => At(s, h) && s.procs[h].Recording?
    case DrawCode(h, secret, _) => At(s, h) && s.procs[h].Issuing? && Fresh(s, secret)
    case StoreCode(h) => At(s, h) && s.procs[h].StoringCode?
    case Redeem(h, client, _, _, _) => !At(s, h) && client.id in s.clients && s.clients[client.id] == client
    case CheckCode(h, _) => At(s, h) && s.procs[h].Redeeming?
  }

  // authorizePKCEError
  predicate PKCEAcceptable(client: Client, challenge: string, challengeMethod: string) {
    && (client.requirePKCE || client.isPublic ==> challenge != "" && challengeMethod == "S256")
    && (challenge != "" ==> challengeMethod == "S256")
  }

  predicate ValidVerifier(verifier: string) {
    && 43 <= |verifier| <= 128
    && forall c :: c in verifier ==>
         'A' <= c <= 'Z' || 'a' <= c <= 'z' || '0' <= c <= '9' || c == '-' || c == '.' || c == '_' || c == '~'
  }

  predicate VerifyPKCE(cfg: Config, challenge: string, challengeMethod: string, verifier: string) {
    challengeMethod == "S256" && challenge != "" && ValidVerifier(verifier) && cfg.s256(verifier) == challenge
  }

  // The checks of tokenAuthorizationCode on a consumed code
  predicate CodeRedeemable(cfg: Config, code: AuthCode, clientID: string, redirectURI: string, verifier: string,
                           now: int) {
    && !(now > code.expiresAt)
    && code.clientID == clientID && code.redirectURI == redirectURI
    && (code.codeChallenge != "" ==> VerifyPKCE(cfg, code.codeChallenge, code.codeChallengeMethod, verifier))
  }

  const CONSENT_EXPIRY: int := 5 * MINUTE

  function Goto(s: State, h: nat, p: Proc): State {
    s.(procs := s.procs[h := p])
  }

  function Done(s: State, h: nat): State {
    s.(procs := s.procs - {h})
  }

  function CodeFor(ar: AuthRequest, login: Login, expiresAt: int): AuthCode {
    AuthCode(login.userID, ar.clientID, ar.redirectURI, ar.scope, ar.nonce, ar.codeChallenge, ar.codeChallengeMethod,
             login.authTime, expiresAt, login.amr)
  }

  function ApprovalsOf(userID: string, clientID: string, scopes: seq<string>): set<Approval> {
    set w | w in scopes :: Approval(userID, clientID, w)
  }

  // handleAuthorize up to its first write
  function Authorized(s: State, a: Action, expiresAt: int): State
    requires a.Authorize?
  {
    if a.clientID !in s.clients || a.redirectURI !in s.clients[a.clientID].redirectURIs then s
    else
      var client := s.clients[a.clientID];
      var scope := AuthorizationScope(client, a.scope);
      var challengeMethod := if a.challengeMethod == "" && a.challenge != "" then "S256" else a.challengeMethod;
      if scope.Err? || !PKCEAcceptable(client, a.challenge, challengeMethod) then s
      else
        var ar := AuthRequest(a.id, client.id, a.redirectURI, scope.value, a.nonce, a.challenge, challengeMethod,
                              expiresAt);
        var origin := Origin(client, a.redirectURI, scope.value, a.nonce, a.challenge, challengeMethod);
        Goto(s, a.h, if a.session.Some? then Proceeding(ar, a.session.value) else Putting(ar))
        .(drawn := s.drawn + {a.id}, past := s.past.(origin := s.past.origin[a.id := origin]))
  }

  // A stored code spends its request
  function Stored(past: History, p: Proc): History
    requires p.StoringCode?
  {
    past.(spent := past.spent + {p.ar.id}, issued := past.issued[p.key := Issue(p.ar.id, p.code, p.consented)])
  }

  function Step(cfg: Config, s: State, a: Action): State
    requires Enabled(cfg, s, a)
  {
    match a
    case Register(client) => s.(clients := s.clients[client.id := client])
    case Deregister(id) => s.(clients := s.clients - {id})
    case DropConsents(id) => s.(consents := map k | k in s.consents && s.consents[k].clientID != id :: s.consents[k])
    case SweepRequests(now) => s.(requests := Swept(s.requests, (v: AuthRequest) => v.expiresAt, now))
    case SweepCodes(now) => s.(codes := Swept(s.codes, (v: AuthCode) => v.expiresAt, now))
    case Abort(h) => Done(s, h)
    case Authorize(_, _, _, _, _, _, _, _, _, now) => Authorized(s, a, now + cfg.codeTTL)
    case Put(h) => Done(s, h).(requests := s.requests[s.procs[h].ar.id := s.procs[h].ar])
    case ConsumeForLogin(h, id) =>
      if id !in s.requests then s
      else Goto(s, h, LoggingIn(s.requests[id])).(requests := s.requests - {id})
    case LoginFails(h, now) =>
      if now > s.procs[h].ar.expiresAt then Done(s, h) else Goto(s, h, Putting(s.procs[h].ar))
    case LoginSucceeds(h, login, now) =>
      if now > s.procs[h].ar.expiresAt then Done(s, h) else Goto(s, h, Proceeding(s.procs[h].ar, login))
    case Proceed(h) =>
      var p := s.procs[h];
      if p.ar.clientID !in s.clients then Done(s, h)
      else
        var client := s.clients[p.ar.clientID];
        Goto(s, h, if client.requireConsent then ReadingConsent(p.ar, p.login) else Issuing(p.ar, p.login, false))
        .(lookups := s.lookups + {Lookup(p.ar.id, client)})
    case ReadConsent(h) =>
      var p := s.procs[h];
      var k := ConsentKey(p.login.userID, p.ar.clientID);
      Goto(s, h, Deciding(p.ar, p.login, if k in s.consents then Some(s.consents[k]) else None))
    case Decide(h, now) =>
      var p := s.procs[h];
      if p.found.Some? && Covers(p.found.value.scopes, RequestedScopes(p.ar.scope)) then
        Goto(s, h, Issuing(p.ar, p.login, true))
      else Goto(s, h, Putting(p.ar.(expiresAt := now + CONSENT_EXPIRY)))
    case ConsumeForConsent(h, login, id) =>
      if id !in s.requests then s
      else Goto(s, h, Confirming(s.requests[id], login)).(requests := s.requests - {id})
    case Approve(h, now) =>
      var p := s.procs[h];
      if now > p.ar.expiresAt then Done(s, h)
      else Goto(s, h, Approving(p.ar, p.login))
           .(past := s.past.(approvals := s.past.approvals
                             + ApprovalsOf(p.login.userID, p.ar.clientID, RequestedScopes(p.ar.scope))))
    case ReadExisting(h) =>
      var p := s.procs[h];
      var k := ConsentKey(p.login.userID, p.ar.clientID);
      var want := RequestedScopes(p.ar.scope);
      Goto(s, h, Recording(p.ar, p.login, if k in s.consents then MergeScopes(s.consents[k].scopes, want) else want))
    case RecordConsent(h) =>
      var p := s.procs[h];
      if p.login.userID == "" || p.ar.clientID == "" then Done(s, h)
      else Goto(s, h, Issuing(p.ar, p.login, true))
           .(consents := s.consents[ConsentKey(p.login.userID, p.ar.clientID)
                                    := Consent(p.login.userID, p.ar.clientID, p.merged)])
    case DrawCode(h, secret, now) =>
      var p := s.procs[h];
      Goto(s, h, StoringCode(p.ar, Digest(secret), CodeFor(p.ar, p.login, now + cfg.codeTTL), p.consented))
      .(drawn := s.drawn + {secret})
    case StoreCode(h) =>
      var p := s.procs[h];
      Done(s, h).(codes := s.codes[p.key := p.code], past := Stored(s.past, p))
    case Redeem(h, client, code, redirectURI, verifier) =>
      var key := Digest(code);
      var tried := if key in s.past.issued then s.(past := s.past.(attempted := s.past.attempted + {key})) else s;
      if key !in s.codes then tried
      else Goto(tried, h, Redeeming(client, redirectURI, verifier, key, s.codes[key])).(codes := s.codes - {key})
    case CheckCode(h, now) =>
      var p := s.procs[h];
      if !CodeRedeemable(cfg, p.code, p.client.id, p.redirectURI, p.verifier, now) then Done(s, h)
      else
        var refresh := p.client.allowOffline && OFFLINE_ACCESS in Tokens(p.code.scope);
        Done(s, h).(past := s.past.(grants := s.past.grants
                                              + [Grant(p.key, p.client, p.redirectURI, p.verifier, p.code, refresh)]))
  }

  // ---- Invariants ----

  function Holds(p: Proc): Option<AuthRequest> {
    if p.Redeeming? then None else Some(p.ar)
  }

  function Minting(p: Proc): Option<Digest> {
    if p.StoringCode? then Some(p.key) else None
  }

  function Burning(p: Proc): Option<Digest> {
    if p.Redeeming? then Some(p.key) else None
  }

  predicate Matches(ar: AuthRequest, o: Origin) {
    && ar.clientID == o.client.id && ar.redirectURI == o.redirectURI && ar.scope == o.scope && ar.nonce == o.nonce
    && ar.codeChallenge == o.codeChallenge && ar.codeChallengeMethod == o.codeChallengeMethod
  }

  predicate CodeMatches(code: AuthCode, o: Origin) {
    && code.clientID == o.client.id && code.redirectURI == o.redirectURI && code.scope == o.scope
    && code.nonce == o.nonce
    && code.codeChallenge == o.codeChallenge && code.codeChallengeMethod == o.codeChallengeMethod
  }

  // Every scope was approved, provided client ids cannot be confused in consent keys
  ghost predicate Approved(cfg: Config, approvals: set<Approval>, userID: string, clientID: string,
                           scopes: seq<string>) {
    Distinguishable(cfg.clientIds) ==> forall w :: w in scopes ==> Approval(userID, clientID, w) in approvals
  }

  // An unspent request, unchanged since it was accepted except for its expiry
  ghost predicate Carries(past: History, ar: AuthRequest) {
    ar.id in past.origin && Matches(ar, past.origin[ar.id]) && ar.id !in past.spent
  }

  ghost predicate Ungranted(grants: seq<Grant>, key: Digest) {
    forall i :: 0 <= i < |grants| ==> grants[i].key != key
  }

  ghost predicate Consenting(cfg: Config, approvals: set<Approval>, p: Proc) {
    match p
    case Deciding(ar, login, found) =>
      found.Some? ==> Approved(cfg, approvals, login.userID, ar.clientID, found.value.scopes)
    case Approving(ar, login) => Approved(cfg, approvals, login.userID, ar.clientID, RequestedScopes(ar.scope))
    case Recording(ar, login, merged) =>
      && Approved(cfg, approvals, login.userID, ar.clientID, RequestedScopes(ar.scope))
      && Approved(cfg, approvals, login.userID, ar.clientID, merged)
    case Issuing(ar, login, consented) =>
      consented ==> Approved(cfg, approvals, login.userID, ar.clientID, RequestedScopes(ar.scope))
    case StoringCode(_, _, code, consented) =>
      consented ==> Approved(cfg, approvals, code.userID, code.clientID, RequestedScopes(code.scope))
    case _ => true
  }

  ghost predicate Knows(drawn: set<string>, past: History, p: Proc) {
    && (Holds(p).Some? ==> Carries(past, Holds(p).value))
    && (p.StoringCode? ==>
          CodeMatches(p.code, past.origin[p.ar.id]) && p.key.secret in drawn && p.key !in past.issued)
    && (p.Redeeming? ==>
          && p.key in past.issued && past.issued[p.key].code == p.code
          && p.key in past.attempted && Ungranted(past.grants, p.key))
  }

  ghost predicate ProcsOk(cfg: Config, procs: map<nat, Proc>, drawn: set<string>, past: History) {
    forall h :: h in procs ==> Knows(drawn, past, procs[h]) && Consenting(cfg, past.approvals, procs[h])
  }

  // No two requests in flight hold the same authorization request, mint the same code or burn the same code
  predicate Apart(p: Proc, q: Proc) {
    && (Holds(p).Some? && Holds(q).Some? ==> Holds(p).value.id != Holds(q).value.id)
    && (Minting(p).Some? ==> Minting(p) != Minting(q))
    && (Burning(p).Some? ==> Burning(p) != Burning(q))
  }

  ghost predicate AllApart(procs: map<nat, Proc>) {
    forall g, h :: g in procs && h in procs && g != h ==> Apart(procs[g], procs[h])
  }

  ghost predicate Requests(requests: map<string, AuthRequest>, past: History) {
    forall id :: id in requests ==> requests[id].id == id && Carries(past, requests[id])
  }

  ghost predicate NotStored(requests: map<string, AuthRequest>, procs: map<nat, Proc>) {
    forall h :: h in procs && Holds(procs[h]).Some? ==> Holds(procs[h]).value.id !in requests
  }

  ghost predicate Codes(codes: map<Digest, AuthCode>, past: History) {
    forall k :: k in codes ==> k in past.issued && past.issued[k].code == codes[k] && k !in past.attempted
  }

  ghost predicate IssueOk(cfg: Config, past: History, issue: Issue) {
    && issue.request in past.origin && issue.request in past.spent
    && CodeMatches(issue.code, past.origin[issue.request])
    && (issue.consented ==> Approved(cfg, past.approvals, issue.code.userID, issue.code.clientID,
                                     RequestedScopes(issue.code.scope)))
  }

  ghost predicate Issues(cfg: Config, past: History) {
    && past.attempted <= past.issued.Keys
    && (forall k :: k in past.issued ==> IssueOk(cfg, past, past.issued[k]))
    && (forall j, k :: j in past.issued && k in past.issued && past.issued[j].request == past.issued[k].request ==>
        j == k)
  }

  ghost predicate Drawn(drawn: set<string>, past: History) {
    && (forall id :: id in past.origin ==> id in drawn)
    && (forall k :: k in past.issued ==> k.secret in drawn)
  }

  ghost predicate OriginOk(cfg: Config, o: Origin) {
    && o.client.id in cfg.clientIds && o.redirectURI in o.client.redirectURIs
    && Tokens(o.scope) <= AllowedScopeSet(o.client)
    && PKCEAcceptable(o.client, o.codeChallenge, o.codeChallengeMethod)
  }

  ghost predicate Origins(cfg: Config, past: History) {
    && past.spent <= past.origin.Keys
    && forall id :: id in past.origin ==> OriginOk(cfg, past.origin[id])
  }

  ghost predicate ConsentsOk(cfg: Config, consents: map<string, Consent>, approvals: set<Approval>) {
    forall k :: k in consents ==>
      && k == ConsentKey(consents[k].userID, consents[k].clientID) && consents[k].clientID in cfg.clientIds
      && Approved(cfg, approvals, consents[k].userID, consents[k].clientID, consents[k].scopes)
  }

  ghost predicate Clients(cfg: Config, clients: map<string, Client>) {
    forall id :: id in clients ==> clients[id].id == id && id in cfg.clientIds
  }

  ghost predicate GrantOk(cfg: Config, past: History, g: Grant) {
    && g.key in past.issued && g.key in past.attempted && past.issued[g.key].code == g.code
    && g.code.clientID == g.client.id && g.code.redirectURI == g.redirectURI
    && (g.code.codeChallenge != "" ==> VerifyPKCE(cfg, g.code.codeChallenge, g.code.codeChallengeMethod, g.verifier))
    && (g.refresh ==> g.client.allowOffline && OFFLINE_ACCESS in Tokens(g.code.scope))
  }

  ghost predicate Grants(cfg: Config, past: History) {
    && (forall i, j :: 0 <= i < j < |past.grants| ==> past.grants[i].key != past.grants[j].key)
    && (forall i :: 0 <= i < |past.grants| ==> GrantOk(cfg, past, past.grants[i]))
  }

  ghost predicate PastInv(cfg: Config, past: History) {
    Issues(cfg, past) && Origins(cfg, past) && Grants(cfg, past)
  }

  ghost predicate StoreInv(cfg: Config, s: State) {
    && Requests(s.requests, s.past) && Codes(s.codes, s.past) && Drawn(s.drawn, s.past)
    && ConsentsOk(cfg, s.consents, s.past.approvals) && Clients(cfg, s.clients)
  }

  ghost predicate FlightInv(cfg: Config, s: State) {
    ProcsOk(cfg, s.procs, s.drawn, s.past) && AllApart(s.procs) && NotStored(s.requests, s.procs)
  }

  ghost predicate Inv(cfg: Config, s: State) {
    PastInv(cfg, s.past) && StoreInv(cfg, s) && FlightInv(cfg, s)
  }

  ghost predicate Init(cfg: Config, s: State) {
    && s.requests == map[] && s.consents == map[] && s.codes == map[] && s.procs == map[]
    && s.lookups == {} && s.past == History(map[], {}, map[], {}, {}, [])
    && Clients(cfg, s.clients)
  }

  lemma InitInv(cfg: Config, s: State)
    requires Init(cfg, s)
    ensures Inv(cfg, s)
  {
  }

  // ---- Steps within one request in flight ----

  lemma ProcsOkGoto(cfg: Config, procs: map<nat, Proc>, drawn: set<string>, past: History, h: nat, p: Proc)
    requires ProcsOk(cfg, procs, drawn, past) && Knows(drawn, past, p) && Consenting(cfg, past.approvals, p)
    ensures ProcsOk(cfg, procs[h := p], drawn, past)
  {
    hide Knows, Consenting;
  }

  lemma ApartGoto(procs: map<nat, Proc>, h: nat, p: Proc)
    requires AllApart(procs) && forall g :: g in procs && g != h ==> Apart(procs[g], p) && Apart(p, procs[g])
    ensures AllApart(procs[h := p])
  {
    hide Apart;
    var next := procs[h := p];
    forall g, g' | g in next && g' in next && g != g'
      ensures Apart(next[g], next[g'])
    {
    }
  }

  lemma MoveFlight(cfg: Config, s: State, h: nat, p: Proc)
    requires FlightInv(cfg, s) && h in s.procs && Knows(s.drawn, s.past, p) && Consenting(cfg, s.past.approvals, p)
    requires Holds(p).Some? && Holds(s.procs[h]).Some? && p.ar.id == s.procs[h].ar.id && Minting(p).None?
    ensures FlightInv(cfg, Goto(s, h, p))
  {
    hide Knows, Consenting;
    ProcsOkGoto(cfg, s.procs, s.drawn, s.past, h, p);
    forall g | g in s.procs && g != h
      ensures Apart(s.procs[g], p) && Apart(p, s.procs[g])
    {
      assert Apart(s.procs[g], s.procs[h]);
    }
    ApartGoto(s.procs, h, p);
  }

  lemma MoveInv(cfg: Config, s: State, h: nat, p: Proc)
    requires h in s.procs && Holds(p).Some? && Holds(s.procs[h]).Some? && p.ar.id == s.procs[h].ar.id
    requires Minting(p).None?
    requires Knows(s.drawn, s.past, p) && Consenting(cfg, s.past.approvals, p)
    requires Inv(cfg, s)
    ensures Inv(cfg, Goto(s, h, p))
  {
    hide Issues, Origins, Grants, Requests, Codes, Drawn, ConsentsOk, Clients, ProcsOk, AllApart, NotStored, Knows,
      Consenting;
    MoveFlight(cfg, s, h, p);
  }

  lemma DoneInv(cfg: Config, s: State, h: nat)
    requires Inv(cfg, s)
    ensures Inv(cfg, Done(s, h))
  {
    hide Issues, Origins, Grants, Requests, Codes, Drawn, ConsentsOk, Clients, Knows, Consenting, Apart;
  }

  // ---- Steps that move an authorization request between the store and a handler ----

  lemma TakeFlight(cfg: Config, s: State, h: nat, id: string, p: Proc)
    requires FlightInv(cfg, s) && h !in s.procs && id in s.requests && s.requests[id].id == id
    requires Holds(p) == Some(s.requests[id]) && Minting(p).None?
    requires Knows(s.drawn, s.past, p) && Consenting(cfg, s.past.approvals, p)
    ensures FlightInv(cfg, Goto(s, h, p).(requests := s.requests - {id}))
  {
    hide Knows, Consenting;
    ProcsOkGoto(cfg, s.procs, s.drawn, s.past, h, p);
    forall g | g in s.procs && g != h
      ensures Apart(s.procs[g], p) && Apart(p, s.procs[g])
    {
    }
    ApartGoto(s.procs, h, p);
  }

  lemma TakeInv(cfg: Config, s: State, h: nat, id: string, p: Proc)
    requires h !in s.procs && id in s.requests
    requires Holds(p) == Some(s.requests[id]) && Minting(p).None? && Consenting(cfg, s.past.approvals, p)
    requires Inv(cfg, s)
    ensures Inv(cfg, Goto(s, h, p).(requests := s.requests - {id}))
  {
    hide Issues, Origins, Grants, Codes, Drawn, ConsentsOk, Clients, ProcsOk, AllApart, NotStored, Carries, Consenting;
    assert Knows(s.drawn, s.past, p);
    TakeFlight(cfg, s, h, id, p);
  }

  lemma PutInv(cfg: Config, s: State, h: nat)
    requires h in s.procs && s.procs[h].Putting?
    requires Inv(cfg, s)
    ensures Inv(cfg, Done(s, h).(requests := s.requests[s.procs[h].ar.id := s.procs[h].ar]))
  {
    hide Issues, Origins, Grants, Codes, Drawn, ConsentsOk, Clients, Consenting, Carries;
    assert Knows(s.drawn, s.past, s.procs[h]);
    forall g | g in s.procs - {h} && Holds(s.procs[g]).Some?
      ensures Holds(s.procs[g]).value.id != s.procs[h].ar.id
    {
      assert Apart(s.procs[g], s.procs[h]);
    }
  }

  // ---- Steps that make history ----

  lemma ConsentingStill(cfg: Config, approvals: set<Approval>, later: set<Approval>, p: Proc)
    requires approvals <= later && Consenting(cfg, approvals, p)
    ensures Consenting(cfg, later, p)
  {
    hide RequestedScopes;
  }

  // An accepted authorization request, with what was asked for
  lemma AuthorizePast(cfg: Config, past: History, id: string, o: Origin)
    requires PastInv(cfg, past) && OriginOk(cfg, o) && id !in past.origin
    ensures PastInv(cfg, past.(origin := past.origin[id := o]))
  {
    hide OriginOk, Approved, RequestedScopes, VerifyPKCE, Tokens;
  }

  lemma AuthorizeStore(cfg: Config, s: State, id: string, o: Origin)
    requires StoreInv(cfg, s) && id !in s.past.origin
    ensures StoreInv(cfg, s.(drawn := s.drawn + {id}, past := s.past.(origin := s.past.origin[id := o])))
  {
    hide ConsentsOk, Clients, Tokens;
  }

  lemma KnowsMoreOrigins(drawn: set<string>, past: History, id: string, o: Origin, p: Proc)
    requires Knows(drawn, past, p) && id !in past.origin
    ensures Knows(drawn + {id}, past.(origin := past.origin[id := o]), p)
  {
    hide Matches, CodeMatches, Ungranted;
  }

  lemma AuthorizeFlight(cfg: Config, s: State, h: nat, id: string, o: Origin, p: Proc)
    requires FlightInv(cfg, s) && h !in s.procs && id !in s.past.origin && id !in s.past.spent && id !in s.requests
    requires (p.Putting? || p.Proceeding?) && p.ar.id == id && Matches(p.ar, o) && Consenting(cfg, s.past.approvals, p)
    ensures FlightInv(cfg, Goto(s, h, p).(drawn := s.drawn + {id}, past := s.past.(origin := s.past.origin[id := o])))
  {
    hide Consenting, Matches, CodeMatches, Ungranted;
    var later := s.past.(origin := s.past.origin[id := o]);
    var drawn := s.drawn + {id};
    forall g | g in s.procs
      ensures Knows(drawn, later, s.procs[g]) && Apart(s.procs[g], p) && Apart(p, s.procs[g])
    {
      KnowsMoreOrigins(s.drawn, s.past, id, o, s.procs[g]);
    }
    ProcsOkGoto(cfg, s.procs, drawn, later, h, p);
    ApartGoto(s.procs, h, p);
  }

  lemma AuthorizeInv(cfg: Config, s: State, a: Action)
    requires a.Authorize? && Enabled(cfg, s, a)
    requires Inv(cfg, s)
    ensures Inv(cfg, Step(cfg, s, a))
  {
    hide Issues, Grants, Requests, Codes, ConsentsOk, ProcsOk, AllApart, NotStored, Knows, Base64Url;
    hide AuthorizationScope, AllowedScopeSet, Tokens;
    var later := Step(cfg, s, a);
    if later != s {
      var o := later.past.origin[a.id];
      var p := later.procs[a.h];
      assert OriginOk(cfg, o) by {
        AuthorizationScopeExact(s.clients[a.clientID], a.scope);
      }
      assert a.id !in s.requests by {
        RequestsDrawn(s);
      }
      AuthorizePast(cfg, s.past, a.id, o);
      AuthorizeStore(cfg, s, a.id, o);
      AuthorizeFlight(cfg, s, a.h, a.id, o, p);
    }
  }

  lemma RequestsDrawn(s: State)
    requires Requests(s.requests, s.past) && Drawn(s.drawn, s.past)
    ensures forall id :: id in s.requests ==> id in s.drawn
  {
  }

  // The user approves what the request asks for
  lemma ApprovePast(cfg: Config, past: History, approvals: set<Approval>)
    requires PastInv(cfg, past) && past.approvals <= approvals
    ensures PastInv(cfg, past.(approvals := approvals))
  {
    hide RequestedScopes, VerifyPKCE, Tokens, OriginOk, CodeMatches;
  }

  lemma ApproveStore(cfg: Config, s: State, approvals: set<Approval>)
    requires StoreInv(cfg, s) && s.past.approvals <= approvals
    ensures StoreInv(cfg, s.(past := s.past.(approvals := approvals)))
  {
    hide Tokens, Clients, Matches;
  }

  lemma ApproveFlight(cfg: Config, s: State, approvals: set<Approval>)
    requires FlightInv(cfg, s) && s.past.approvals <= approvals
    ensures FlightInv(cfg, s.(past := s.past.(approvals := approvals)))
  {
    hide Tokens, Matches, CodeMatches, Ungranted, Consenting, Apart;
    var later := s.past.(approvals := approvals);
    forall h | h in s.procs
      ensures Knows(s.drawn, later, s.procs[h]) && Consenting(cfg, approvals, s.procs[h])
    {
      ConsentingStill(cfg, s.past.approvals, approvals, s.procs[h]);
    }
  }

  lemma ApproveInv(cfg: Config, s: State, approvals: set<Approval>)
    requires s.past.approvals <= approvals
    requires Inv(cfg, s)
    ensures Inv(cfg, s.(past := s.past.(approvals := approvals)))
  {
    hide Issues, Origins, Grants, Requests, Codes, Drawn, ConsentsOk, Clients, ProcsOk, AllApart, NotStored;
    ApprovePast(cfg, s.past, approvals);
    ApproveStore(cfg, s, approvals);
    ApproveFlight(cfg, s, approvals);
  }

  // The consent record of this user and client is replaced by approved scopes
  lemma RecordInv(cfg: Config, s: State, userID: string, clientID: string, scopes: seq<string>)
    requires clientID in cfg.clientIds && Approved(cfg, s.past.approvals, userID, clientID, scopes)
    requires Inv(cfg, s)
    ensures Inv(cfg, s.(consents := s.consents[ConsentKey(userID, clientID) := Consent(userID, clientID, scopes)]))
  {
    hide Issues, Origins, Grants, Requests, Codes, Drawn, Clients, ProcsOk, AllApart, NotStored, Approved;
  }

  // Reading a record under the key of (user, client) yields that user's record for that client
  lemma ConsentFound(cfg: Config, s: State, userID: string, clientID: string)
    requires clientID in cfg.clientIds
    requires ConsentsOk(cfg, s.consents, s.past.approvals) && ConsentKey(userID, clientID) in s.consents
    ensures Approved(cfg, s.past.approvals, userID, clientID, s.consents[ConsentKey(userID, clientID)].scopes)
  {
    var rec := s.consents[ConsentKey(userID, clientID)];
    if Distinguishable(cfg.clientIds) {
      ConsentKeyInjective(cfg.clientIds, userID, clientID, rec.userID, rec.clientID);
    }
  }

  // A code is drawn
  lemma KnowsMoreDrawn(drawn: set<string>, past: History, secret: string, p: Proc)
    requires Knows(drawn, past, p)
    ensures Knows(drawn + {secret}, past, p)
  {
    hide Matches, CodeMatches, Ungranted;
  }

  lemma DrawCodeFlight(cfg: Config, s: State, h: nat, secret: string, p: Proc)
    requires FlightInv(cfg, s) && Drawn(s.drawn, s.past) && h in s.procs && secret !in s.drawn
    requires p.StoringCode? && p.key == Digest(secret) && Holds(s.procs[h]) == Some(p.ar)
    requires Carries(s.past, p.ar) && CodeMatches(p.code, s.past.origin[p.ar.id])
    requires Consenting(cfg, s.past.approvals, p)
    ensures FlightInv(cfg, Goto(s, h, p).(drawn := s.drawn + {secret}))
  {
    hide Consenting, Matches, CodeMatches, Ungranted;
    var drawn := s.drawn + {secret};
    forall g | g in s.procs
      ensures Knows(drawn, s.past, s.procs[g]) && (g != h ==> Apart(s.procs[g], p) && Apart(p, s.procs[g]))
    {
      assert Knows(s.drawn, s.past, s.procs[g]);
      KnowsMoreDrawn(s.drawn, s.past, secret, s.procs[g]);
      assert g != h ==> Apart(s.procs[g], s.procs[h]);
    }
    ProcsOkGoto(cfg, s.procs, drawn, s.past, h, p);
    ApartGoto(s.procs, h, p);
  }

  lemma DrawCodeInv(cfg: Config, s: State, a: Action)
    requires a.DrawCode? && Enabled(cfg, s, a)
    requires Inv(cfg, s)
    ensures Inv(cfg, Step(cfg, s, a))
  {
    hide Issues, Origins, Grants, Requests, Codes, ConsentsOk, Clients, AllApart, NotStored, Base64Url, Approved,
      RequestedScopes;
    var p := s.procs[a.h];
    assert Knows(s.drawn, s.past, p) && Consenting(cfg, s.past.approvals, p);
    DrawCodeFlight(cfg, s, a.h, a.secret, Step(cfg, s, a).procs[a.h]);
  }

  // A code is stored
  lemma StoreCodePast(cfg: Config, drawn: set<string>, past: History, p: Proc)
    requires PastInv(cfg, past) && p.StoringCode? && Knows(drawn, past, p) && Consenting(cfg, past.approvals, p)
    ensures PastInv(cfg, Stored(past, p))
  {
    hide Approved, RequestedScopes, VerifyPKCE, Tokens, OriginOk, CodeMatches, Matches, Ungranted;
  }

  lemma StoreCodeStore(cfg: Config, s: State, h: nat)
    requires StoreInv(cfg, s) && NotStored(s.requests, s.procs) && s.past.attempted <= s.past.issued.Keys
    requires h in s.procs && s.procs[h].StoringCode? && Knows(s.drawn, s.past, s.procs[h])
    ensures StoreInv(cfg, Done(s, h).(codes := s.codes[s.procs[h].key := s.procs[h].code],
                                      past := Stored(s.past, s.procs[h])))
  {
    hide ConsentsOk, Clients, Matches, CodeMatches, Ungranted;
  }

  lemma StoreCodeFlight(cfg: Config, s: State, h: nat)
    requires FlightInv(cfg, s) && h in s.procs && s.procs[h].StoringCode?
    ensures FlightInv(cfg, Done(s, h).(past := Stored(s.past, s.procs[h])))
  {
    hide Consenting, Matches, CodeMatches, Ungranted;
    var later := Stored(s.past, s.procs[h]);
    forall g | g in s.procs && g != h
      ensures Knows(s.drawn, later, s.procs[g])
    {
      assert Knows(s.drawn, s.past, s.procs[g]) && Knows(s.drawn, s.past, s.procs[h]) && Apart(s.procs[g], s.procs[h]);
    }
  }

  lemma StoreCodeInv(cfg: Config, s: State, h: nat)
    requires Enabled(cfg, s, StoreCode(h))
    requires Inv(cfg, s)
    ensures Inv(cfg, Step(cfg, s, StoreCode(h)))
  {
    hide Origins, Grants, Requests, Codes, Drawn, ConsentsOk, Clients, AllApart, NotStored, IssueOk, Knows, Consenting;
    assert Knows(s.drawn, s.past, s.procs[h]) && Consenting(cfg, s.past.approvals, s.procs[h]);
    StoreCodePast(cfg, s.drawn, s.past, s.procs[h]);
    StoreCodeStore(cfg, s, h);
    StoreCodeFlight(cfg, s, h);
  }

  // A stored code is presented
  lemma AttemptInv(cfg: Config, s: State, key: Digest)
    requires key in s.past.issued
    requires Inv(cfg, s)
    ensures Inv(cfg, Presented(s, key))
  {
    hide Approved, RequestedScopes, VerifyPKCE, Tokens, OriginOk, CodeMatches, Matches, Ungranted, ConsentsOk, Clients;
    hide Consenting, AllApart, NotStored;
  }

  lemma RedeemFlight(cfg: Config, s: State, h: nat, p: Proc)
    requires FlightInv(cfg, s) && h !in s.procs && p.Redeeming? && Knows(s.drawn, s.past, p)
    requires forall g :: g in s.procs && s.procs[g].Redeeming? ==> s.procs[g].key != p.key
    ensures FlightInv(cfg, Goto(s, h, p))
  {
    hide Consenting, Knows;
    assert Consenting(cfg, s.past.approvals, p) by {
      RedeemingConsents(cfg, s.past.approvals, p);
    }
    ProcsOkGoto(cfg, s.procs, s.drawn, s.past, h, p);
    ApartGoto(s.procs, h, p);
  }

  lemma RedeemingConsents(cfg: Config, approvals: set<Approval>, p: Proc)
    requires p.Redeeming?
    ensures Consenting(cfg, approvals, p)
  {
  }

  lemma UnpresentedIsUngranted(cfg: Config, s: State, key: Digest)
    requires Grants(cfg, s.past) && key !in s.past.attempted
    ensures Ungranted(s.past.grants, key)
  {
    hide VerifyPKCE, Tokens;
    forall i | 0 <= i < |s.past.grants|
      ensures s.past.grants[i].key != key
    {
      assert GrantOk(cfg, s.past, s.past.grants[i]);
    }
  }

  // Nobody is checking a code that is still stored
  lemma StoredIsNotRedeemed(cfg: Config, s: State, key: Digest, g: nat)
    requires Inv(cfg, s) && key in s.codes && g in s.procs && s.procs[g].Redeeming?
    ensures s.procs[g].key != key
  {
    hide IssueOk, Origins, Grants, Requests, Drawn, ConsentsOk, Clients, AllApart, NotStored, Consenting, Carries,
      Ungranted;
    assert Knows(s.drawn, s.past, s.procs[g]);
  }

  function Presented(s: State, key: Digest): State {
    s.(codes := s.codes - {key}, past := s.past.(attempted := s.past.attempted + {key}))
  }

  lemma RedeemStoredInv(cfg: Config, s: State, h: nat, p: Proc)
    requires h !in s.procs && p.Redeeming? && p.key in s.codes && p.code == s.codes[p.key]
    requires Inv(cfg, s)
    ensures p.key in s.past.issued && Inv(cfg, Goto(Presented(s, p.key), h, p))
  {
    assert p.key in s.past.issued && s.past.issued[p.key].code == p.code;
    hide IssueOk, Origins, Grants, Requests, Codes, Drawn, ConsentsOk, Clients, AllApart, NotStored, Consenting,
      Carries;
    hide Ungranted, ProcsOk, Issues;
    AttemptInv(cfg, s, p.key);
    UnpresentedIsUngranted(cfg, s, p.key);
    forall g | g in s.procs && s.procs[g].Redeeming?
      ensures s.procs[g].key != p.key
    {
      StoredIsNotRedeemed(cfg, s, p.key, g);
    }
    RedeemFlight(cfg, Presented(s, p.key), h, p);
  }

  lemma RedeemInv(cfg: Config, s: State, a: Action)
    requires a.Redeem? && Enabled(cfg, s, a)
    requires Inv(cfg, s)
    ensures Inv(cfg, Step(cfg, s, a))
  {
    hide Inv;
    var key := Digest(a.code);
    if key in s.codes {
      var p := Redeeming(a.client, a.redirectURI, a.verifier, key, s.codes[key]);
      RedeemStoredInv(cfg, s, a.h, p);
      assert Step(cfg, s, a) == Goto(Presented(s, key), a.h, p);
    } else if key in s.past.issued {
      AttemptInv(cfg, s, key);
      assert s.codes - {key} == s.codes;
      assert Step(cfg, s, a) == Presented(s, key);
    }
  }

  // The code passes the checks
  lemma GrantPast(cfg: Config, past: History, g: Grant)
    requires PastInv(cfg, past) && GrantOk(cfg, past, g) && Ungranted(past.grants, g.key)
    ensures PastInv(cfg, past.(grants := past.grants + [g]))
  {
    hide Approved, RequestedScopes, VerifyPKCE, Tokens, OriginOk, CodeMatches;
  }

  lemma GrantFlight(cfg: Config, s: State, h: nat, g: Grant)
    requires FlightInv(cfg, s) && h in s.procs && s.procs[h].Redeeming? && g.key == s.procs[h].key
    ensures FlightInv(cfg, Done(s, h).(past := s.past.(grants := s.past.grants + [g])))
  {
    hide Consenting, Matches, CodeMatches;
    var later := s.past.(grants := s.past.grants + [g]);
    forall i | i in s.procs && i != h
      ensures Knows(s.drawn, later, s.procs[i])
    {
      assert Knows(s.drawn, s.past, s.procs[i]) && Apart(s.procs[i], s.procs[h]);
    }
  }

  lemma CheckCodeInv(cfg: Config, s: State, a: Action)
    requires a.CheckCode? && Enabled(cfg, s, a)
    requires Inv(cfg, s)
    ensures Inv(cfg, Step(cfg, s, a))
  {
    hide Issues, Origins, Grants, Requests, Codes, Drawn, ConsentsOk, Clients, AllApart, NotStored, Consenting, Carries;
    hide Ungranted, VerifyPKCE, Tokens;
    var p := s.procs[a.h];
    assert Knows(s.drawn, s.past, p);
    DoneInv(cfg, s, a.h);
    var later := Step(cfg, s, a);
    if later != Done(s, a.h) {
      var g := later.past.grants[|s.past.grants|];
      GrantPast(cfg, s.past, g);
      GrantFlight(cfg, s, a.h, g);
      assert StoreInv(cfg, later) by {
        GrantStore(cfg, Done(s, a.h), later.past.grants);
      }
    }
  }

  lemma GrantStore(cfg: Config, s: State, grants: seq<Grant>)
    requires StoreInv(cfg, s)
    ensures StoreInv(cfg, s.(past := s.past.(grants := grants)))
  {
    hide ConsentsOk, Clients, Matches;
  }

  // ---- All steps ----

  lemma ShrinkInv(cfg: Config, s: State, later: State)
    requires later == s.(clients := later.clients, requests := later.requests, consents := later.consents,
                         codes := later.codes)
    requires forall id :: id in later.requests ==> id in s.requests && later.requests[id] == s.requests[id]
    requires forall k :: k in later.consents ==> k in s.consents && later.consents[k] == s.consents[k]
    requires forall k :: k in later.codes ==> k in s.codes && later.codes[k] == s.codes[k]
    requires Clients(cfg, later.clients)
    requires Inv(cfg, s)
    ensures Inv(cfg, later)
  {
    hide Issues, Origins, Grants, Drawn, Clients, ProcsOk, AllApart, Carries, Approved;
  }

  lemma RegisteredClient(cfg: Config, past: History, ar: AuthRequest)
    requires Carries(past, ar) && Origins(cfg, past)
    ensures ar.clientID in cfg.clientIds
  {
    hide Tokens, AllowedScopeSet, PKCEAcceptable;
  }

  // A request that stays with its handler, before any consent
  lemma CarryInv(cfg: Config, s: State, h: nat, p: Proc)
    requires p.Putting? || p.Proceeding? || p.ReadingConsent? || (p.Issuing? && !p.consented)
    requires h in s.procs && Holds(s.procs[h]) == Some(p.ar)
    requires Inv(cfg, s)
    ensures Inv(cfg, Goto(s, h, p))
  {
    hide Issues, Origins, Grants, Requests, Codes, Drawn, ConsentsOk, Clients, AllApart, NotStored, Approved,
      RequestedScopes, Carries;
    assert Knows(s.drawn, s.past, s.procs[h]);
    MoveInv(cfg, s, h, p);
  }

  lemma DecideInv(cfg: Config, s: State, a: Action)
    requires a.Decide? && Enabled(cfg, s, a)
    requires Inv(cfg, s)
    ensures Inv(cfg, Step(cfg, s, a))
  {
    hide Issues, Origins, Grants, Requests, Codes, Drawn, ConsentsOk, Clients, AllApart, NotStored, RequestedScopes,
      Distinguishable;
    var p := s.procs[a.h];
    assert Knows(s.drawn, s.past, p) && Consenting(cfg, s.past.approvals, p);
    if p.found.Some? && Covers(p.found.value.scopes, RequestedScopes(p.ar.scope)) {
      MoveInv(cfg, s, a.h, Issuing(p.ar, p.login, true));
    } else {
      MoveInv(cfg, s, a.h, Putting(p.ar.(expiresAt := a.now + CONSENT_EXPIRY)));
    }
  }

  lemma ReadConsentInv(cfg: Config, s: State, a: Action)
    requires a.ReadConsent? || a.ReadExisting?
    requires Enabled(cfg, s, a)
    requires Inv(cfg, s)
    ensures Inv(cfg, Step(cfg, s, a))
  {
    hide Issues, Origins, Grants, Requests, Codes, Drawn, ConsentsOk, Clients, AllApart, NotStored, Ungranted;
    hide RequestedScopes, MergeScopes, Distinguishable, ConsentKey, Matches, CodeMatches;
    var p := s.procs[a.h];
    assert Knows(s.drawn, s.past, p) && Consenting(cfg, s.past.approvals, p);
    hide ProcsOk;
    RegisteredClient(cfg, s.past, p.ar);
    var k := ConsentKey(p.login.userID, p.ar.clientID);
    if k in s.consents {
      ConsentFound(cfg, s, p.login.userID, p.ar.clientID);
      MergeScopesIsUnion(s.consents[k].scopes, RequestedScopes(p.ar.scope));
    }
    MoveInv(cfg, s, a.h, Step(cfg, s, a).procs[a.h]);
  }

  lemma ApproveStepInv(cfg: Config, s: State, a: Action)
    requires a.Approve? && Enabled(cfg, s, a)
    requires Inv(cfg, s)
    ensures Inv(cfg, Step(cfg, s, a))
  {
    hide Issues, Origins, Grants, Requests, Codes, Drawn, ConsentsOk, Clients, AllApart, NotStored, Ungranted;
    hide RequestedScopes, Distinguishable;
    var p := s.procs[a.h];
    DoneInv(cfg, s, a.h);
    if !(a.now > p.ar.expiresAt) {
      var approvals := s.past.approvals + ApprovalsOf(p.login.userID, p.ar.clientID, RequestedScopes(p.ar.scope));
      ApproveInv(cfg, s, approvals);
      var approved := s.(past := s.past.(approvals := approvals));
      assert Knows(approved.drawn, approved.past, p);
      MoveInv(cfg, approved, a.h, Approving(p.ar, p.login));
    }
  }

  lemma RecordStepInv(cfg: Config, s: State, a: Action)
    requires a.RecordConsent? && Enabled(cfg, s, a)
    requires Inv(cfg, s)
    ensures Inv(cfg, Step(cfg, s, a))
  {
    hide Issues, Origins, Grants, Requests, Codes, Drawn, ConsentsOk, Clients, AllApart, NotStored, Ungranted;
    hide RequestedScopes, Distinguishable, ConsentKey, Approved;
    var p := s.procs[a.h];
    assert Knows(s.drawn, s.past, p) && Consenting(cfg, s.past.approvals, p);
    RegisteredClient(cfg, s.past, p.ar);
    DoneInv(cfg, s, a.h);
    RecordInv(cfg, s, p.login.userID, p.ar.clientID, p.merged);
    var recorded := s.(consents := s.consents[ConsentKey(p.login.userID, p.ar.clientID)
                                              := Consent(p.login.userID, p.ar.clientID, p.merged)]);
    MoveInv(cfg, recorded, a.h, Issuing(p.ar, p.login, true));
  }

  // Nobody's request: the registry, the sweeper, an administrator
  lemma OutsideInv(cfg: Config, s: State, a: Action)
    requires a.Register? || a.Deregister? || a.DropConsents? || a.SweepRequests? || a.SweepCodes?
    requires Enabled(cfg, s, a)
    requires Inv(cfg, s)
    ensures Inv(cfg, Step(cfg, s, a))
  {
    hide Issues, Origins, Grants, Requests, Codes, Drawn, ConsentsOk, ProcsOk, AllApart, NotStored, Consenting,
      Base64Url;
    ShrinkInv(cfg, s, Step(cfg, s, a));
  }

  // The handler drops the request it holds, or carries it on
  lemma CarryStepInv(cfg: Config, s: State, a: Action)
    requires a.LoginFails? || a.LoginSucceeds? || a.Proceed?
    requires Enabled(cfg, s, a)
    requires Inv(cfg, s)
    ensures Inv(cfg, Step(cfg, s, a))
  {
    hide Issues, Origins, Grants, Requests, Codes, Drawn, ConsentsOk, ProcsOk, AllApart, NotStored, Consenting,
      Base64Url;
    DoneInv(cfg, s, a.h);
    match a
    case LoginFails(h, _) => CarryInv(cfg, s, h, Putting(s.procs[h].ar));
    case LoginSucceeds(h, login, _) => CarryInv(cfg, s, h, Proceeding(s.procs[h].ar, login));
    case Proceed(h) =>
      CarryInv(cfg, s, h, ReadingConsent(s.procs[h].ar, s.procs[h].login));
      CarryInv(cfg, s, h, Issuing(s.procs[h].ar, s.procs[h].login, false));
  }

  lemma TakeUnconsented(cfg: Config, approvals: set<Approval>, p: Proc)
    requires p.LoggingIn? || p.Confirming?
    ensures Consenting(cfg, approvals, p)
  {
  }

  /** Every step keeps the invariant. */
  lemma StepInv(cfg: Config, s: State, a: Action)
    requires Enabled(cfg, s, a)
    requires Inv(cfg, s)
    ensures Inv(cfg, Step(cfg, s, a))
  {
    hide Issues, Origins, Grants, Requests, Codes, Drawn, ConsentsOk, ProcsOk, AllApart, NotStored, Consenting,
      Base64Url;
    match a
    case Register(_) => OutsideInv(cfg, s, a);
    case Deregister(_) => OutsideInv(cfg, s, a);
    case DropConsents(_) => OutsideInv(cfg, s, a);
    case SweepRequests(_) => OutsideInv(cfg, s, a);
    case SweepCodes(_) => OutsideInv(cfg, s, a);
    case Abort(h) => DoneInv(cfg, s, h);
    case Authorize(_, _, _, _, _, _, _, _, _, _) => AuthorizeInv(cfg, s, a);
    case Put(h) => PutInv(cfg, s, h);
    case ConsumeForLogin(h, id) =>
      if id in s.requests {
        TakeUnconsented(cfg, s.past.approvals, LoggingIn(s.requests[id]));
        TakeInv(cfg, s, h, id, LoggingIn(s.requests[id]));
      }
    case ConsumeForConsent(h, login, id) =>
      if id in s.requests {
        TakeUnconsented(cfg, s.past.approvals, Confirming(s.requests[id], login));
        TakeInv(cfg, s, h, id, Confirming(s.requests[id], login));
      }
    case ReadConsent(_) => ReadConsentInv(cfg, s, a);
    case ReadExisting(_) => ReadConsentInv(cfg, s, a);
    case Approve(_, _) => ApproveStepInv(cfg, s, a);
    case RecordConsent(_) => RecordStepInv(cfg, s, a);
    case DrawCode(_, _, _) => DrawCodeInv(cfg, s, a);
    case StoreCode(h) => StoreCodeInv(cfg, s, h);
    case Redeem(_, _, _, _, _) => RedeemInv(cfg, s, a);
    case CheckCode(_, _) => CheckCodeInv(cfg, s, a);
    case Decide(_, _) => DecideInv(cfg, s, a);
    case LoginFails(_, _) => CarryStepInv(cfg, s, a);
    case LoginSucceeds(_, _, _) => CarryStepInv(cfg, s, a);
    case Proceed(_) => CarryStepInv(cfg, s, a);
  }
}
