/** Consent is sound in every run exactly when no two client ids can be confused in a consent key. */
module ConsentExactness {
  import opened Entities
  import opened Scopes
  import opened Consents
  import opened AuthorizationFlow
  import opened AuthorizationTheorems
  import opened FlowRuns

  // Every code issued on the strength of a consent carries only scopes this user approved for this client
  ghost predicate Sound(s: State) {
    forall k, w :: k in s.past.issued && s.past.issued[k].consented && w in Tokens(s.past.issued[k].code.scope) ==>
      Approval(s.past.issued[k].code.userID, s.past.issued[k].code.clientID, w) in s.past.approvals
  }

  // A client that asks for consent, for openid only
  function Asking(id: string): Client {
    Client(id, ["cb"], false, false, [OPENID], false, true)
  }

  lemma OpenIdFields()
    ensures Fields(OPENID) == [OPENID]
  {
    SupportedAreTokens([OPENID]);
    TokensAreWords([OPENID]);
    FieldsOfJoin([OPENID]);
  }

  lemma AskingIsPermitted(id: string)
    ensures Permitted(Asking(id), OPENID)
  {
    OpenIdFields();
    assert Words([OPENID]) == [OPENID] by {
      assert [OPENID][1..] == [];
    }
    SupportedAreTokens([OPENID]);
    FirstInvalidNone([OPENID]);
    assert [OPENID][1..] == [] && [] + [OPENID] == [OPENID];
    assert Normalized([OPENID]) == Ok([OPENID]);
  }

  lemma ScopeAccepted(id: string)
    ensures AuthorizationScope(Asking(id), OPENID).Ok?
    ensures Tokens(AuthorizationScope(Asking(id), OPENID).value) == {OPENID}
  {
    hide AuthorizationScope, Permitted;
    OpenIdFields();
    AskingIsPermitted(id);
    AuthorizationScopeExact(Asking(id), OPENID);
    assert Tokens(OPENID) == {OPENID};
  }

  function RequestOf(cfg: Config, client: Client, id: string): AuthRequest {
    var scope := AuthorizationScope(client, OPENID);
    AuthRequest(id, client.id, "cb", if scope.Ok? then scope.value else "", "", "", "", cfg.codeTTL)
  }

  // The request is on record, and so is the client that was looked up for it
  function Entered(s: State, ar: AuthRequest): State {
    var client := Asking(ar.clientID);
    Remembered(s, ar, client).(lookups := s.lookups + {Lookup(ar.id, client)})
  }

  // handleAuthorize with a session, up to the consent lookup
  lemma Enter(cfg: Config, s: State, h: nat, login: Login, id: string, clientID: string) returns (actions: seq<Action>)
    requires h !in s.procs && Fresh(s, id) && clientID in s.clients && s.clients[clientID] == Asking(clientID)
    ensures var ar, k := RequestOf(cfg, Asking(clientID), id), ConsentKey(login.userID, clientID);
      Leads(cfg, s, actions, Goto(Entered(s, ar), h,
                                  Deciding(ar, login, if k in s.consents then Some(s.consents[k]) else None)))
  {
    hide AuthorizationScope, Leads, ConsentKey, Tokens;
    ScopeAccepted(clientID);
    var client, ar := Asking(clientID), RequestOf(cfg, Asking(clientID), id);
    var authorize := Authorize(h, clientID, "cb", OPENID, "", "", "", Some(login), id, 0);
    Nowhere(cfg, s);
    Advance(cfg, s, [], s, authorize);
    assert Step(cfg, s, authorize) == Goto(Remembered(s, ar, client), h, Proceeding(ar, login));
    actions := Consult(cfg, s, [] + [authorize], Remembered(s, ar, client), h, ar, login);
  }

  // No consent yet: the request is stashed, and the user approves it
  lemma AskAndAgree(cfg: Config, s: State, sofar: seq<Action>, base: State, h: nat, ar: AuthRequest, login: Login)
    returns (actions: seq<Action>, t: State)
    requires h !in base.procs && Leads(cfg, s, sofar, Goto(base, h, Deciding(ar, login, None)))
    requires login.userID != "" && ar.clientID != "" && ConsentKey(login.userID, ar.clientID) !in base.consents
    ensures Leads(cfg, s, actions, t)
    ensures t == WithApprovals(base, ar, login)
                 .(requests := base.requests[ar.id := ar.(expiresAt := CONSENT_EXPIRY)] - {ar.id},
                   consents := base.consents[ConsentKey(login.userID, ar.clientID)
                                             := Consent(login.userID, ar.clientID, RequestedScopes(ar.scope))])
  {
    hide Leads, RequestedScopes, ConsentKey, Step, ApprovalsOf;
    var stashed := ar.(expiresAt := CONSENT_EXPIRY);
    DecideNow(cfg, s, sofar, base, h, ar, login, None, 0);
    actions, t := PutBack(cfg, s, sofar + [Decide(h, 0)], base, h, stashed);
    TakeForConsent(cfg, s, actions, t, h, ar.id, login);
    actions := actions + [ConsumeForConsent(h, login, ar.id)];
    var b := t.(requests := t.requests - {ar.id});
    SayYes(cfg, s, actions, b, h, stashed, login, 0);
    actions := actions + [Approve(h, 0)];
    var b1 := WithApprovals(b, stashed, login);
    Merge(cfg, s, actions, b1, h, stashed, login);
    actions := actions + [ReadExisting(h)];
    Record(cfg, s, actions, b1, h, stashed, login, Merged(b1, stashed, login));
    actions := actions + [RecordConsent(h)];
    t := b1.(consents := b1.consents[ConsentKey(login.userID, ar.clientID)
                                     := Consent(login.userID, ar.clientID, RequestedScopes(ar.scope))]);
    actions := GiveUp(cfg, s, actions, t, h, Issuing(stashed, login, true));
  }

  // What openid asks for
  lemma OnlyOpenId(cfg: Config, clientID: string, id: string)
    ensures var scope := RequestOf(cfg, Asking(clientID), id).scope;
      Tokens(scope) == {OPENID} && forall w :: w in RequestedScopes(scope) <==> w == OPENID
  {
    hide AuthorizationScope;
    ScopeAccepted(clientID);
    var scope := RequestOf(cfg, Asking(clientID), id).scope;
    RequestedScopesAre(scope);
  }

  // Two clients that ask for consent, and nothing else
  function TwoClients(c: string, d: string): State {
    State(map[c := Asking(c), d := Asking(d)], map[], map[], map[], map[], {}, {},
          History(map[], {}, map[], {}, {}, []))
  }

  // The first user approves the first client
  lemma FirstUser(cfg: Config, c: string, d: string, u: string) returns (actions: seq<Action>, t: State)
    requires c != d && u != "" && c != ""
    ensures Leads(cfg, TwoClients(c, d), actions, t)
    ensures t.clients == TwoClients(c, d).clients && t.procs == map[] && t.drawn == {"a"}
    ensures ConsentKey(u, c) in t.consents && OPENID in t.consents[ConsentKey(u, c)].scopes
    ensures forall a :: a in t.past.approvals ==> a.clientID == c
  {
    hide Leads, ConsentKey, AuthorizationScope, RequestedScopes;
    var s, login, ar := TwoClients(c, d), Login(u, 0, []), RequestOf(cfg, Asking(c), "a");
    OnlyOpenId(cfg, c, "a");
    actions := Enter(cfg, s, 0, login, "a", c);
    actions, t := AskAndAgree(cfg, s, actions, Entered(s, ar), 0, ar, login);
  }

  // The second user gets a code for the second client on the strength of the first user's approval
  lemma SecondUser(cfg: Config, s: State, d: string, v: string) returns (actions: seq<Action>, t: State)
    requires s.procs == map[] && s.drawn == {"a"} && d in s.clients && s.clients[d] == Asking(d)
    requires ConsentKey(v, d) in s.consents && OPENID in s.consents[ConsentKey(v, d)].scopes
    ensures Leads(cfg, s, actions, t) && t.past.approvals == s.past.approvals
    ensures exists k ::
              && k in t.past.issued && t.past.issued[k].consented
              && OPENID in Tokens(t.past.issued[k].code.scope)
              && t.past.issued[k].code.userID == v && t.past.issued[k].code.clientID == d
  {
    hide Leads, ConsentKey, AuthorizationScope, RequestedScopes, Tokens;
    var login, ar, rec := Login(v, 0, []), RequestOf(cfg, Asking(d), "b"), s.consents[ConsentKey(v, d)];
    var base := Entered(s, ar);
    OnlyOpenId(cfg, d, "b");
    actions := Enter(cfg, s, 0, login, "b", d);
    DecideNow(cfg, s, actions, base, 0, ar, login, Some(rec), 0);
    actions := actions + [Decide(0, 0)];
    Draw(cfg, s, actions, base, 0, ar, login, true, "e", 0);
    actions := actions + [DrawCode(0, "e", 0)];
    t := Keep(cfg, s, actions, base.(drawn := base.drawn + {"e"}), 0,
              StoringCode(ar, Digest("e"), CodeFor(ar, login, cfg.codeTTL), true));
    actions := actions + [StoreCode(0)];
    assert Digest("e") in t.past.issued;
  }

  /** Two client ids that collide for some users share one record, so that soundness is lost. */
  lemma SharedKeyMixesConsents(cfg: Config, c: string, d: string, u: string, v: string) returns (t: State)
    requires c in cfg.clientIds && d in cfg.clientIds && c != d && c != "" && u != ""
    requires ConsentKey(u, c) == ConsentKey(v, d)
    ensures Reachable(cfg, t) && !Sound(t)
  {
    hide Leads, ConsentKey, Tokens;
    var s := TwoClients(c, d);
    var first, t1 := FirstUser(cfg, c, d, u);
    var second;
    second, t := SecondUser(cfg, t1, d, v);
    Compose(cfg, s, first, t1, second, t);
    assert Reachable(cfg, t) by { Reached(cfg, s, first + second, t); }
  }

  lemma Reached(cfg: Config, s: State, actions: seq<Action>, t: State)
    requires Init(cfg, s) && Leads(cfg, s, actions, t)
    ensures Reachable(cfg, t)
  {
    hide Step, Init;
  }

  // A longer id that ends in "|" and a shorter one: the users "x" and "x|..." share a consent key
  lemma UsersThatCollide(c: string, d: string) returns (v: string)
    requires EndsWith(c, "|" + d)
    ensures ConsentKey("x", c) == ConsentKey(v, d) && c != "" && c != d
  {
    var front := c[..|c| - |d| - 1];
    assert c == front + ("|" + d);
    v := "x|" + front;
    assert ConsentKey("x", c) == "x|" + (front + ("|" + d));
    assert ConsentKey(v, d) == ("x|" + front) + ("|" + d);
  }

  /** Consent is sound in every reachable state if and only if no two client ids can be confused. */
  lemma ConsentSoundnessIsExact(cfg: Config)
    ensures Distinguishable(cfg.clientIds) <==> forall s :: Reachable(cfg, s) ==> Sound(s)
  {
    hide Reachable, ConsentKey, Tokens;
    if Distinguishable(cfg.clientIds) {
      forall s | Reachable(cfg, s)
        ensures Sound(s)
      {
        forall k | k in s.past.issued && s.past.issued[k].consented
          ensures forall w :: w in Tokens(s.past.issued[k].code.scope) ==>
                    Approval(s.past.issued[k].code.userID, s.past.issued[k].code.clientID, w) in s.past.approvals
        {
          ConsentIsSound(cfg, s, k);
        }
      }
    } else {
      var c, d :| c in cfg.clientIds && d in cfg.clientIds && Confusable(c, d);
      if EndsWith(c, "|" + d) {
        var v := UsersThatCollide(c, d);
        var t := SharedKeyMixesConsents(cfg, c, d, "x", v);
      } else {
        var v := UsersThatCollide(d, c);
        var t := SharedKeyMixesConsents(cfg, d, c, "x", v);
      }
    }
  }
}
