/** What every interleaving of authorize, login, consent and code redemption guarantees. */
module AuthorizationTheorems {
  import opened Entities
  import opened Scopes
  import opened Consents
  import opened AuthorizationFlow

  ghost predicate IsRun(cfg: Config, s: State, actions: seq<Action>)
    decreases |actions|
  {
    actions == [] || (Enabled(cfg, s, actions[0]) && IsRun(cfg, Step(cfg, s, actions[0]), actions[1..]))
  }

  ghost function After(cfg: Config, s: State, actions: seq<Action>): State
    requires IsRun(cfg, s, actions)
    decreases |actions|
  {
    if actions == [] then s else After(cfg, Step(cfg, s, actions[0]), actions[1..])
  }

  ghost predicate Reachable(cfg: Config, s: State) {
    exists first: State, actions: seq<Action> :: Init(cfg, first) && IsRun(cfg, first, actions) &&
      After(cfg, first, actions) == s
  }

  lemma {:induction false} RunInv(cfg: Config, s: State, actions: seq<Action>)
    requires Inv(cfg, s) && IsRun(cfg, s, actions)
    ensures Inv(cfg, After(cfg, s, actions))
    decreases |actions|
  {
    hide Inv;
    if actions != [] {
      StepInv(cfg, s, actions[0]);
      RunInv(cfg, Step(cfg, s, actions[0]), actions[1..]);
    }
  }

  lemma ReachableInv(cfg: Config, s: State)
    requires Reachable(cfg, s)
    ensures Inv(cfg, s)
  {
    hide Inv, Init, Step;
    var first: State, actions: seq<Action> :|
      Init(cfg, first) && IsRun(cfg, first, actions) && After(cfg, first, actions) == s;
    InitInv(cfg, first);
    RunInv(cfg, first, actions);
  }

  /** An authorization request is in the store, or held by one handler, or spent on a code, and never two of these. */
  lemma RequestsAreLinear(cfg: Config, s: State)
    requires Reachable(cfg, s)
    ensures forall id :: id in s.requests ==> id !in s.past.spent
    ensures forall h :: h in s.procs && Holds(s.procs[h]).Some? ==>
              Holds(s.procs[h]).value.id !in s.requests && Holds(s.procs[h]).value.id !in s.past.spent
    ensures forall g, h :: g in s.procs && h in s.procs && g != h ==>
              Holds(s.procs[g]).Some? && Holds(s.procs[h]).Some? ==>
                Holds(s.procs[g]).value.id != Holds(s.procs[h]).value.id
  {
    hide Reachable, Issues, Origins, Grants, Codes, Drawn, ConsentsOk, Clients, Consenting, Matches, CodeMatches,
      Ungranted;
    ReachableInv(cfg, s);
    forall h | h in s.procs && Holds(s.procs[h]).Some?
      ensures Holds(s.procs[h]).value.id !in s.requests && Holds(s.procs[h]).value.id !in s.past.spent
    {
      assert Knows(s.drawn, s.past, s.procs[h]);
    }
    forall g, h | g in s.procs && h in s.procs && g != h && Holds(s.procs[g]).Some? && Holds(s.procs[h]).Some?
      ensures Holds(s.procs[g]).value.id != Holds(s.procs[h]).value.id
    {
      assert Apart(s.procs[g], s.procs[h]);
    }
  }

  /** A request leads to at most one code, and a code to at most one token response. */
  lemma OneGrantPerRequest(cfg: Config, s: State)
    requires Reachable(cfg, s)
    ensures forall j, k :: j in s.past.issued && k in s.past.issued && j != k ==>
              s.past.issued[j].request != s.past.issued[k].request
    ensures forall i :: 0 <= i < |s.past.grants| ==> s.past.grants[i].key in s.past.issued
    ensures forall i, j :: 0 <= i < j < |s.past.grants| ==>
              s.past.issued[s.past.grants[i].key].request != s.past.issued[s.past.grants[j].key].request
  {
    hide Reachable, Origins, StoreInv, FlightInv, IssueOk, VerifyPKCE, Tokens;
    ReachableInv(cfg, s);
    forall i | 0 <= i < |s.past.grants|
      ensures s.past.grants[i].key in s.past.issued
    {
      assert GrantOk(cfg, s.past, s.past.grants[i]);
    }
  }

  // What a token response owes to the request it came from
  ghost predicate Honours(cfg: Config, g: Grant, o: Origin) {
    && g.client.id == o.client.id
    && g.redirectURI == o.redirectURI && o.redirectURI in o.client.redirectURIs
    && g.code.nonce == o.nonce
    && (o.codeChallenge != "" || o.client.requirePKCE || o.client.isPublic ==>
        o.codeChallenge != "" && 43 <= |g.verifier| <= 128 && cfg.s256(g.verifier) == o.codeChallenge)
    && g.code.scope == o.scope && Tokens(o.scope) <= AllowedScopeSet(o.client)
    && (g.refresh ==> OFFLINE_ACCESS in Tokens(o.scope))
  }

  /** A token response honours its request: same client and redirect URI, the PKCE verifier of the challenge,
      and no scope outside what the client was allowed when the request was accepted. */
  lemma GrantHonoursRequest(cfg: Config, s: State, i: nat)
    requires Reachable(cfg, s) && i < |s.past.grants|
    ensures s.past.grants[i].key in s.past.issued
    ensures s.past.issued[s.past.grants[i].key].request in s.past.origin
    ensures Honours(cfg, s.past.grants[i], s.past.origin[s.past.issued[s.past.grants[i].key].request])
  {
    hide Reachable, StoreInv, FlightInv, Approved, Tokens, AllowedScopeSet;
    ReachableInv(cfg, s);
    var g := s.past.grants[i];
    assert GrantOk(cfg, s.past, g);
    assert IssueOk(cfg, s.past, s.past.issued[g.key]);
    assert OriginOk(cfg, s.past.origin[s.past.issued[g.key].request]);
  }

  // Attempts and token responses are only ever added to
  lemma AuthorizeKeepsRecords(cfg: Config, s: State, a: Action)
    requires a.Authorize? && Enabled(cfg, s, a)
    ensures Step(cfg, s, a).past.attempted == s.past.attempted && Step(cfg, s, a).past.grants == s.past.grants
  {
    hide AuthorizationScope, PKCEAcceptable;
  }

  lemma RecordsGrow(cfg: Config, s: State, a: Action)
    requires Enabled(cfg, s, a)
    ensures s.past.attempted <= Step(cfg, s, a).past.attempted
    ensures s.past.grants <= Step(cfg, s, a).past.grants
    ensures !a.CheckCode? ==> Step(cfg, s, a).past.grants == s.past.grants
  {
    if a.Authorize? {
      AuthorizeKeepsRecords(cfg, s, a);
    } else {
      hide Authorized, Tokens, CodeRedeemable, RequestedScopes, MergeScopes, Covers, CodeFor, ConsentKey;
    }
  }

  lemma {:induction false} AttemptsGrow(cfg: Config, s: State, actions: seq<Action>, key: Digest)
    requires IsRun(cfg, s, actions) && key in s.past.attempted
    ensures key in After(cfg, s, actions).past.attempted
    decreases |actions|
  {
    if actions != [] {
      hide Step;
      RecordsGrow(cfg, s, actions[0]);
      AttemptsGrow(cfg, Step(cfg, s, actions[0]), actions[1..], key);
    }
  }

  /** Presenting a stored code burns it for good, whoever presents it and whatever the checks then say. */
  lemma PresentedCodeIsBurned(cfg: Config, s: State, a: Action, actions: seq<Action>)
    requires Reachable(cfg, s) && a.Redeem? && Enabled(cfg, s, a) && Digest(a.code) in s.codes
    requires IsRun(cfg, Step(cfg, s, a), actions)
    ensures Digest(a.code) !in After(cfg, Step(cfg, s, a), actions).codes
  {
    hide Reachable, IssueOk, Origins, Grants, Requests, Drawn, ConsentsOk, Clients, FlightInv;
    ReachableInv(cfg, s);
    var key := Digest(a.code);
    assert key in s.past.issued;
    assert key in Step(cfg, s, a).past.attempted;
    hide Step;
    StepInv(cfg, s, a);
    RunInv(cfg, Step(cfg, s, a), actions);
    AttemptsGrow(cfg, Step(cfg, s, a), actions, key);
  }

  /** A code issued for a client that required consent carries only scopes this user approved for this client,
      as long as no two client ids can be confused in a consent key. */
  lemma ConsentIsSound(cfg: Config, s: State, k: Digest)
    requires Reachable(cfg, s) && Distinguishable(cfg.clientIds)
    requires k in s.past.issued && s.past.issued[k].consented
    ensures forall w :: w in Tokens(s.past.issued[k].code.scope) ==>
              Approval(s.past.issued[k].code.userID, s.past.issued[k].code.clientID, w) in s.past.approvals
  {
    hide Reachable, Origins, Grants, StoreInv, FlightInv, CodeMatches, Distinguishable;
    ReachableInv(cfg, s);
    assert IssueOk(cfg, s.past, s.past.issued[k]);
    RequestedScopesAre(s.past.issued[k].code.scope);
  }

  // ---- Codes without consent ----

  // The client was looked up for this request and was registered as one that needs no consent
  ghost predicate Waived(lookups: set<Lookup>, request: string, clientID: string) {
    exists client :: Lookup(request, client) in lookups && client.id == clientID && !client.requireConsent
  }

  ghost predicate ProcWaived(lookups: set<Lookup>, p: Proc) {
    && (p.Issuing? && !p.consented ==> Waived(lookups, p.ar.id, p.ar.clientID))
    && (p.StoringCode? && !p.consented ==> Waived(lookups, p.ar.id, p.code.clientID))
  }

  ghost predicate WaiverInv(s: State) {
    && (forall h :: h in s.procs ==> ProcWaived(s.lookups, s.procs[h]))
    && (forall k :: k in s.past.issued && !s.past.issued[k].consented ==>
          Waived(s.lookups, s.past.issued[k].request, s.past.issued[k].code.clientID))
  }

  lemma ProceedWaives(cfg: Config, s: State, h: nat)
    requires Enabled(cfg, s, Proceed(h)) && Clients(cfg, s.clients) && WaiverInv(s)
    ensures WaiverInv(Step(cfg, s, Proceed(h)))
  {
    var later, ar := Step(cfg, s, Proceed(h)), s.procs[h].ar;
    forall g | g in s.procs
      ensures ProcWaived(later.lookups, s.procs[g])
    {
      assert ProcWaived(s.lookups, s.procs[g]);
    }
    if ar.clientID in s.clients {
      assert Lookup(ar.id, s.clients[ar.clientID]) in later.lookups;
    }
  }

  // Nothing is recorded, and requests in flight go on to anything but an unconsented code
  ghost predicate Harmless(s: State, later: State) {
    && later.lookups == s.lookups && later.past.issued == s.past.issued
    && forall g :: g in later.procs ==>
         || (g in s.procs && later.procs[g] == s.procs[g])
         || !(later.procs[g].Issuing? || later.procs[g].StoringCode?) || later.procs[g].consented
  }

  lemma HarmlessWaives(s: State, later: State)
    requires WaiverInv(s) && Harmless(s, later)
    ensures WaiverInv(later)
  {
    hide Waived;
  }

  // No request in flight moves
  predicate Tends(a: Action) {
    a.Register? || a.Deregister? || a.DropConsents? || a.SweepRequests? || a.SweepCodes?
  }

  predicate Consumes(a: Action) {
    a.ConsumeForLogin? || a.ConsumeForConsent?
  }

  predicate LogsIn(a: Action) {
    a.LoginFails? || a.LoginSucceeds?
  }

  predicate Consults(a: Action) {
    a.ReadExisting? || a.ReadConsent? || a.RecordConsent?
  }

  lemma TendingIsHarmless(cfg: Config, s: State, a: Action)
    requires Enabled(cfg, s, a) && Tends(a)
    ensures Harmless(s, Step(cfg, s, a))
  {
  }

  lemma AuthorizeIsHarmless(cfg: Config, s: State, a: Action)
    requires Enabled(cfg, s, a) && a.Authorize?
    ensures Harmless(s, Step(cfg, s, a))
  {
    hide AuthorizationScope, PKCEAcceptable;
  }

  lemma PutIsHarmless(cfg: Config, s: State, a: Action)
    requires Enabled(cfg, s, a) && (a.Put? || a.Abort?)
    ensures Harmless(s, Step(cfg, s, a))
  {
  }

  lemma ConsumeIsHarmless(cfg: Config, s: State, a: Action)
    requires Enabled(cfg, s, a) && Consumes(a)
    ensures Harmless(s, Step(cfg, s, a))
  {
  }

  lemma LoginIsHarmless(cfg: Config, s: State, a: Action)
    requires Enabled(cfg, s, a) && LogsIn(a)
    ensures Harmless(s, Step(cfg, s, a))
  {
  }

  lemma DecisionIsHarmless(cfg: Config, s: State, a: Action)
    requires Enabled(cfg, s, a) && a.Decide?
    ensures Harmless(s, Step(cfg, s, a))
  {
    hide RequestedScopes, Covers;
  }

  lemma ApprovalIsHarmless(cfg: Config, s: State, a: Action)
    requires Enabled(cfg, s, a) && a.Approve?
    ensures Harmless(s, Step(cfg, s, a))
  {
    hide RequestedScopes, ApprovalsOf;
  }

  lemma ConsultingIsHarmless(cfg: Config, s: State, a: Action)
    requires Enabled(cfg, s, a) && Consults(a)
    ensures Harmless(s, Step(cfg, s, a))
  {
    hide RequestedScopes, MergeScopes, ConsentKey;
  }

  lemma RedeemIsHarmless(cfg: Config, s: State, a: Action)
    requires Enabled(cfg, s, a) && a.Redeem?
    ensures Harmless(s, Step(cfg, s, a))
  {
  }

  lemma CheckIsHarmless(cfg: Config, s: State, a: Action)
    requires Enabled(cfg, s, a) && a.CheckCode?
    ensures Harmless(s, Step(cfg, s, a))
  {
    hide CodeRedeemable, Tokens;
  }

  lemma CodeWaives(cfg: Config, s: State, a: Action)
    requires Enabled(cfg, s, a) && WaiverInv(s) && (a.DrawCode? || a.StoreCode?)
    ensures WaiverInv(Step(cfg, s, a))
  {
    hide Waived;
    assert ProcWaived(s.lookups, s.procs[a.h]);
  }

  lemma StepIsHarmless(cfg: Config, s: State, a: Action)
    requires Enabled(cfg, s, a) && !a.Proceed? && !a.DrawCode? && !a.StoreCode?
    ensures Harmless(s, Step(cfg, s, a))
  {
    hide Step, Harmless;
    if Tends(a) {
      TendingIsHarmless(cfg, s, a);
    } else if a.Authorize? {
      AuthorizeIsHarmless(cfg, s, a);
    } else if Consumes(a) {
      ConsumeIsHarmless(cfg, s, a);
    } else if LogsIn(a) {
      LoginIsHarmless(cfg, s, a);
    } else if a.Decide? {
      DecisionIsHarmless(cfg, s, a);
    } else if a.Approve? {
      ApprovalIsHarmless(cfg, s, a);
    } else if Consults(a) {
      ConsultingIsHarmless(cfg, s, a);
    } else if a.Redeem? {
      RedeemIsHarmless(cfg, s, a);
    } else if a.CheckCode? {
      CheckIsHarmless(cfg, s, a);
    } else {
      PutIsHarmless(cfg, s, a);
    }
  }

  lemma StepWaives(cfg: Config, s: State, a: Action)
    requires Enabled(cfg, s, a) && Clients(cfg, s.clients) && WaiverInv(s)
    ensures WaiverInv(Step(cfg, s, a))
  {
    hide Step, WaiverInv, Clients, Harmless;
    if a.Proceed? {
      ProceedWaives(cfg, s, a.h);
    } else if a.DrawCode? || a.StoreCode? {
      CodeWaives(cfg, s, a);
    } else {
      StepIsHarmless(cfg, s, a);
      HarmlessWaives(s, Step(cfg, s, a));
    }
  }

  lemma {:induction false} RunWaives(cfg: Config, s: State, actions: seq<Action>)
    requires IsRun(cfg, s, actions) && Inv(cfg, s) && WaiverInv(s)
    ensures WaiverInv(After(cfg, s, actions))
    decreases |actions|
  {
    if actions != [] {
      assert Clients(cfg, s.clients);
      hide Inv, Step, WaiverInv, Clients;
      StepInv(cfg, s, actions[0]);
      StepWaives(cfg, s, actions[0]);
      RunWaives(cfg, Step(cfg, s, actions[0]), actions[1..]);
    }
  }

  /** A code issued without consent was issued for a client that needed none when it was looked up. */
  lemma UnconsentedWasWaived(cfg: Config, s: State, k: Digest)
    requires Reachable(cfg, s) && k in s.past.issued && !s.past.issued[k].consented
    ensures Waived(s.lookups, s.past.issued[k].request, s.past.issued[k].code.clientID)
  {
    hide Step, Inv, Waived;
    var first: State, actions: seq<Action> :|
      Init(cfg, first) && IsRun(cfg, first, actions) && After(cfg, first, actions) == s;
    InitInv(cfg, first);
    RunWaives(cfg, first, actions);
  }

  /** When every lookup for a code's request found a client that requires consent, this user approved each of the
      code's scopes for this client, as long as no two client ids can be confused in a consent key. */
  lemma RequiredConsentIsGiven(cfg: Config, s: State, k: Digest)
    requires Reachable(cfg, s) && Distinguishable(cfg.clientIds) && k in s.past.issued
    requires forall client :: Lookup(s.past.issued[k].request, client) in s.lookups ==> client.requireConsent
    ensures forall w :: w in Tokens(s.past.issued[k].code.scope) ==>
              Approval(s.past.issued[k].code.userID, s.past.issued[k].code.clientID, w) in s.past.approvals
  {
    hide Reachable, Distinguishable, Tokens;
    if s.past.issued[k].consented {
      ConsentIsSound(cfg, s, k);
    } else {
      UnconsentedWasWaived(cfg, s, k);
      assert false;
    }
  }
}
