/** The whole grant lifecycle: the authorization flow and the refresh families side by side, joined where a
    redeemed code with offline access founds a refresh-token family. */
module GrantLifecycle {
  import opened Entities
  import opened Scopes
  import Flow = AuthorizationFlow
  import FlowTheorems = AuthorizationTheorems
  import Families = RefreshFamilies
  import Transactions

  // source: the token response that each refresh family founded here came with
  datatype State = State(flow: Flow.State, families: Families.State, source: map<Digest, nat>)

  datatype Action =
    | InFlow(a: Flow.Action)
    | InFamilies(b: Families.Action)
    | GrantWithRefresh(check: Flow.Action, h: nat, secret: string, family: string)

  // Does this step of the flow respond with a refresh token?
  ghost predicate Responds(cfg: Flow.Config, s: Flow.State, a: Flow.Action)
    requires Flow.Enabled(cfg, s, a)
  {
    var later := Flow.Step(cfg, s, a).past.grants;
    |later| > |s.past.grants| && later[|s.past.grants|].refresh
  }

  ghost function Founding(s: State, check: Flow.Action, cfg: Flow.Config, h: nat, secret: string,
                          family: string): Families.Action
    requires Flow.Enabled(cfg, s.flow, check) && Responds(cfg, s.flow, check)
  {
    var g := Flow.Step(cfg, s.flow, check).past.grants[|s.flow.past.grants|];
    Families.DrawRoot(h, g.code.userID, g.client.id, g.code.scope, g.code.authTime, g.code.amr, secret, family)
  }

  ghost predicate Enabled(cfg: Flow.Config, s: State, a: Action) {
    match a
    case InFlow(a) => Flow.Enabled(cfg, s.flow, a) && !Responds(cfg, s.flow, a)
    case InFamilies(b) => Families.Enabled(s.families, b) && !b.DrawRoot?
    case GrantWithRefresh(check, h, secret, family) =>
      && Flow.Enabled(cfg, s.flow, check) && Responds(cfg, s.flow, check)
      && Families.Enabled(s.families, Founding(s, check, cfg, h, secret, family))
  }

  ghost function Step(cfg: Flow.Config, ttl: int, s: State, a: Action): State
    requires Enabled(cfg, s, a)
  {
    match a
    case InFlow(a) => s.(flow := Flow.Step(cfg, s.flow, a))
    case InFamilies(b) => s.(families := Families.Step(ttl, s.families, b))
    case GrantWithRefresh(check, h, secret, family) =>
      State(Flow.Step(cfg, s.flow, check),
            Families.Step(ttl, s.families, Founding(s, check, cfg, h, secret, family)),
            s.source[Digest(secret) := |s.flow.past.grants|])
  }

  predicate FromGrant(token: RefreshToken, g: Flow.Grant) {
    && token.userID == g.code.userID && token.clientID == g.client.id && token.scope == g.code.scope
    && token.authTime == g.code.authTime && token.amr == g.code.amr && token.familyID != ""
  }

  // The response a founded family came with
  ghost predicate Sourced(source: map<Digest, nat>, grants: seq<Flow.Grant>, key: Digest, token: RefreshToken) {
    key in source && source[key] < |grants| && FromGrant(token, grants[source[key]])
  }

  ghost predicate Sources(source: map<Digest, nat>, grants: seq<Flow.Grant>, drawn: set<string>) {
    && (forall k :: k in source ==> source[k] < |grants| && grants[source[k]].refresh && k.secret in drawn)
    && (forall j, k :: j in source && k in source && source[j] == source[k] ==> j == k)
  }

  ghost predicate FlightSourced(procs: map<nat, Families.Proc>, source: map<Digest, nat>, grants: seq<Flow.Grant>) {
    forall h :: h in procs && procs[h].Storing? ==> Sourced(source, grants, procs[h].key, procs[h].token)
  }

  // Every root was founded by a token response here, or predates families
  ghost predicate RootsSourced(past: Families.History, source: map<Digest, nat>, grants: seq<Flow.Grant>) {
    forall k {:trigger past.root[k]} :: k in past.minted && k in past.root && past.root[k] in past.minted ==>
      var root := past.minted[past.root[k]];
      root.familyID == "" || Sourced(source, grants, past.root[k], root)
  }

  ghost predicate Inv(cfg: Flow.Config, s: State) {
    && Flow.Inv(cfg, s.flow) && Families.Inv(s.families)
    && Sources(s.source, s.flow.past.grants, s.families.drawn)
    && FlightSourced(s.families.procs, s.source, s.flow.past.grants)
    && RootsSourced(s.families.past, s.source, s.flow.past.grants)
  }

  ghost predicate Init(cfg: Flow.Config, s: State) {
    Flow.Init(cfg, s.flow) && Families.Init(s.families) && s.source == map[]
  }

  lemma InitInv(cfg: Flow.Config, s: State)
    requires Init(cfg, s)
    ensures Inv(cfg, s)
  {
    hide Flow.Inv, Families.Inv, Flow.Clients, Base64Url;
    Flow.InitInv(cfg, s.flow);
    Families.InitInv(s.families);
  }

  lemma MoreGrants(s: State, source: map<Digest, nat>, grants: seq<Flow.Grant>)
    requires FlightSourced(s.families.procs, s.source, s.flow.past.grants)
    requires RootsSourced(s.families.past, s.source, s.flow.past.grants)
    requires s.flow.past.grants <= grants && forall k :: k in s.source ==> k in source && source[k] == s.source[k]
    ensures FlightSourced(s.families.procs, source, grants) && RootsSourced(s.families.past, source, grants)
  {
    hide FromGrant;
  }

  lemma FlowInv(cfg: Flow.Config, s: State, a: Flow.Action)
    requires Inv(cfg, s) && Flow.Enabled(cfg, s.flow, a)
    ensures Inv(cfg, s.(flow := Flow.Step(cfg, s.flow, a)))
  {
    hide Flow.Inv, Families.Inv, Flow.Step, Sourced, Flow.Enabled;
    Flow.StepInv(cfg, s.flow, a);
    FlowTheorems.RecordsGrow(cfg, s.flow, a);
    MoreGrants(s, s.source, Flow.Step(cfg, s.flow, a).past.grants);
  }

  lemma DrawnGrows(ttl: int, s: Families.State, b: Families.Action)
    requires Families.Enabled(s, b)
    ensures s.drawn <= Families.Step(ttl, s, b).drawn
    ensures !b.Rotate? && !b.StoreRoot? ==> Families.Step(ttl, s, b).past == s.past
  {
    hide Base64Url, Tokens, TrimSpace;
  }

  // Only the token response starts a request that stores a root
  predicate Writes(b: Families.Action) {
    b.Tick? || b.Sweep? || b.RevokeFamily? || b.Burn? || b.Prepare? || b.Rotate? || b.Respond? || b.StoreRoot?
  }

  lemma StoringStillWhileWriting(ttl: int, s: Families.State, b: Families.Action, h: nat)
    requires Families.Enabled(s, b) && Writes(b)
    requires h in Families.Step(ttl, s, b).procs && Families.Step(ttl, s, b).procs[h].Storing?
    ensures h in s.procs && s.procs[h] == Families.Step(ttl, s, b).procs[h]
  {
    hide Base64Url, Tokens, TrimSpace, Families.Succession, Families.Founded, Transactions.NewRotation,
      Transactions.WithoutFamily, Transactions.Swept;
  }

  lemma StoringStillWhileReading(ttl: int, s: Families.State, b: Families.Action, h: nat)
    requires Families.Enabled(s, b) && !Writes(b) && !b.DrawRoot?
    requires h in Families.Step(ttl, s, b).procs && Families.Step(ttl, s, b).procs[h].Storing?
    ensures h in s.procs && s.procs[h] == Families.Step(ttl, s, b).procs[h]
  {
    hide Base64Url, Tokens, TrimSpace, Families.Succession, Families.Founded, Transactions.NewRotation,
      Transactions.WithoutFamily, Transactions.Swept;
  }

  lemma StoringStill(ttl: int, s: Families.State, b: Families.Action, h: nat)
    requires Families.Enabled(s, b) && !b.DrawRoot?
    requires h in Families.Step(ttl, s, b).procs && Families.Step(ttl, s, b).procs[h].Storing?
    ensures h in s.procs && s.procs[h] == Families.Step(ttl, s, b).procs[h]
  {
    hide Families.Step, Families.Enabled;
    if Writes(b) {
      StoringStillWhileWriting(ttl, s, b, h);
    } else {
      StoringStillWhileReading(ttl, s, b, h);
    }
  }

  lemma RotationKeepsSource(past: Families.History, key: Digest, r: Transactions.Rotation, source: map<Digest, nat>,
                            grants: seq<Flow.Grant>)
    requires RootsSourced(past, source, grants) && Families.Roots(past) && Families.MaySucceed(past, key, r)
    ensures RootsSourced(Families.Succession(past, key, r), source, grants)
  {
    hide Base64Url, Tokens, FromGrant, Sourced, Families.IsRotationOf, Families.NewFamily, Families.UnderRoot;
    var later := Families.Succession(past, key, r);
    forall k | k in later.minted && k in later.root && later.root[k] in later.minted
      ensures var root := later.minted[later.root[k]];
        root.familyID == "" || Sourced(source, grants, later.root[k], root)
    {
      var root := past.root[if k == r.key then key else k];
    }
  }

  lemma FoundationHasSource(past: Families.History, key: Digest, token: RefreshToken, source: map<Digest, nat>,
                            grants: seq<Flow.Grant>)
    requires RootsSourced(past, source, grants) && Families.Roots(past) && Families.NewKey(past, key)
    requires Sourced(source, grants, key, token)
    ensures RootsSourced(Families.Founded(past, key, token), source, grants)
  {
    hide Base64Url, Tokens, FromGrant, Sourced, Families.UnderRoot;
    var later := Families.Founded(past, key, token);
    forall k | k in later.minted && k in later.root && later.root[k] in later.minted
      ensures var root := later.minted[later.root[k]];
        root.familyID == "" || Sourced(source, grants, later.root[k], root)
    {
      if k != key {
        var root := past.root[k];
      }
    }
  }

  lemma RootsAfter(ttl: int, s: Families.State, b: Families.Action, source: map<Digest, nat>, grants: seq<Flow.Grant>)
    requires Families.Enabled(s, b) && (b.Rotate? || b.StoreRoot?)
    requires Families.Inv(s)
    requires FlightSourced(s.procs, source, grants) && RootsSourced(s.past, source, grants)
    ensures RootsSourced(Families.Step(ttl, s, b).past, source, grants)
  {
    hide Base64Url, Tokens, FromGrant, Sourced, RootsSourced, Families.Chains, Families.Heirs, Families.Generations,
      Families.Roots;
    hide Families.Buckets, Families.Tombstones, Families.Revocations, Families.Drawn, Families.Answered;
    hide Families.ProcsOk, Families.AllApart, Families.Unanswered, Families.MaySucceed, Families.NewKey,
      Families.MayFound;
    var p := s.procs[b.h];
    if b.Rotate? && p.key in s.active {
      Families.RotateReady(s, b.h);
      Families.RotateMay(s, p);
      RotationKeepsSource(s.past, p.key, p.rotation, source, grants);
    } else if b.StoreRoot? {
      StoredKeyIsNew(s, b.h);
      FoundationHasSource(s.past, p.key, p.token, source, grants);
    }
  }

  lemma StoredKeyIsNew(s: Families.State, h: nat)
    requires Families.ProcsOk(s.procs, s.drawn, s.past) && h in s.procs && s.procs[h].Storing?
    ensures Families.NewKey(s.past, s.procs[h].key)
  {
    hide Families.Knows;
    assert Families.OwnDraws(s.drawn, s.past, s.procs[h]);
  }

  lemma FamiliesInv(cfg: Flow.Config, ttl: int, s: State, b: Families.Action)
    requires Inv(cfg, s) && Families.Enabled(s.families, b) && !b.DrawRoot?
    ensures Inv(cfg, s.(families := Families.Step(ttl, s.families, b)))
  {
    hide Flow.Inv, Families.Step, Families.Enabled, Sourced, FromGrant;
    hide Families.StoreInv, Families.Chains, Families.Heirs, Families.Generations, Families.Roots;
    hide Families.ProcsOk, Families.AllApart, Families.Unanswered;
    Families.StepInv(ttl, s.families, b);
    DrawnGrows(ttl, s.families, b);
    forall h | h in Families.Step(ttl, s.families, b).procs && Families.Step(ttl, s.families, b).procs[h].Storing?
      ensures h in s.families.procs && s.families.procs[h] == Families.Step(ttl, s.families, b).procs[h]
    {
      StoringStill(ttl, s.families, b, h);
    }
    if b.Rotate? || b.StoreRoot? {
      RootsAfter(ttl, s.families, b, s.source, s.flow.past.grants);
    }
  }

  lemma DrawRootStep(ttl: int, s: Families.State, b: Families.Action)
    requires Families.Enabled(s, b) && b.DrawRoot?
    ensures Families.Step(ttl, s, b).procs ==
            s.procs[b.h := Families.Storing(Digest(b.secret),
                                            RefreshToken(b.userID, b.client, b.scope, b.authTime, s.now + ttl,
                                                                           b.amr, b.family, 0))]
    ensures Families.Step(ttl, s, b).drawn == s.drawn + {b.secret, b.family} && b.secret !in s.drawn && b.family != ""
  {
  }

  lemma GrantInv(cfg: Flow.Config, ttl: int, s: State, a: Action)
    requires a.GrantWithRefresh? && Enabled(cfg, s, a)
    requires Inv(cfg, s)
    ensures Inv(cfg, Step(cfg, ttl, s, a))
  {
    hide Flow.Inv, Families.Inv, Flow.Step, Families.Step, Flow.Enabled, Families.Enabled, RootsSourced;
    var later := Step(cfg, ttl, s, a);
    var b := Founding(s, a.check, cfg, a.h, a.secret, a.family);
    Flow.StepInv(cfg, s.flow, a.check);
    Families.StepInv(ttl, s.families, b);
    FlowTheorems.RecordsGrow(cfg, s.flow, a.check);
    DrawnGrows(ttl, s.families, b);
    DrawRootStep(ttl, s.families, b);
    MoreGrants(s, later.source, later.flow.past.grants);
  }

  /** Every step keeps the invariant. */
  lemma StepInv(cfg: Flow.Config, ttl: int, s: State, a: Action)
    requires Enabled(cfg, s, a)
    requires Inv(cfg, s)
    ensures Inv(cfg, Step(cfg, ttl, s, a))
  {
    hide Inv, Flow.Step, Families.Step, Flow.Enabled, Families.Enabled, Responds;
    match a
    case InFlow(a) => FlowInv(cfg, s, a);
    case InFamilies(b) => FamiliesInv(cfg, ttl, s, b);
    case GrantWithRefresh(_, _, _, _) => GrantInv(cfg, ttl, s, a);
  }

  ghost predicate IsRun(cfg: Flow.Config, ttl: int, s: State, actions: seq<Action>)
    decreases |actions|
  {
    actions == [] || (Enabled(cfg, s, actions[0]) && IsRun(cfg, ttl, Step(cfg, ttl, s, actions[0]), actions[1..]))
  }

  ghost function After(cfg: Flow.Config, ttl: int, s: State, actions: seq<Action>): State
    requires IsRun(cfg, ttl, s, actions)
    decreases |actions|
  {
    if actions == [] then s else After(cfg, ttl, Step(cfg, ttl, s, actions[0]), actions[1..])
  }

  lemma {:induction false} RunInv(cfg: Flow.Config, ttl: int, s: State, actions: seq<Action>)
    requires Inv(cfg, s) && IsRun(cfg, ttl, s, actions)
    ensures Inv(cfg, After(cfg, ttl, s, actions))
    decreases |actions|
  {
    hide Inv, Step, Enabled;
    if actions != [] {
      StepInv(cfg, ttl, s, actions[0]);
      RunInv(cfg, ttl, Step(cfg, ttl, s, actions[0]), actions[1..]);
    }
  }

  // The authorization request behind a refresh token whose family was founded here
  ghost predicate StemsFrom(s: State, k: Digest, id: string) {
    && k in s.families.past.root && s.families.past.root[k] in s.source
    && s.source[s.families.past.root[k]] < |s.flow.past.grants|
    && s.flow.past.grants[s.source[s.families.past.root[k]]].key in s.flow.past.issued
    && s.flow.past.issued[s.flow.past.grants[s.source[s.families.past.root[k]]].key].request == id
  }

  ghost predicate WithinRequest(token: RefreshToken, root: RefreshToken, o: Flow.Origin) {
    && token.clientID == o.client.id && token.userID == root.userID && token.authTime == root.authTime
    && Tokens(token.scope) <= Tokens(root.scope) && root.scope == o.scope
    && Tokens(o.scope) <= AllowedScopeSet(o.client)
    && OFFLINE_ACCESS in Tokens(root.scope)
  }

  lemma RootWithinRequest(cfg: Flow.Config, s: State, k: Digest)
    requires Inv(cfg, s) && k in s.families.past.minted && k in s.families.past.root
    requires s.families.past.root[k] in s.families.past.minted
    requires s.families.past.minted[s.families.past.root[k]].familyID != ""
    ensures exists id :: StemsFrom(s, k, id) && id in s.flow.past.origin
              && WithinRequest(s.families.past.minted[k], s.families.past.minted[s.families.past.root[k]],
                               s.flow.past.origin[id])
  {
    hide Flow.StoreInv, Flow.FlightInv, Flow.Issues, Flow.Origins, Families.StoreInv, Families.FlightInv;
    hide Families.Chains, Families.Heirs, Families.Generations, Tokens, AllowedScopeSet, Flow.Approved, Flow.VerifyPKCE;
    var root := s.families.past.root[k];
    var g := s.flow.past.grants[s.source[root]];
    assert Flow.GrantOk(cfg, s.flow.past, g);
    assert Flow.IssueOk(cfg, s.flow.past, s.flow.past.issued[g.key]) by {
      Issued(cfg, s.flow.past, g.key);
    }
    var id := s.flow.past.issued[g.key].request;
    assert Flow.OriginOk(cfg, s.flow.past.origin[id]) by {
      Originated(cfg, s.flow.past, id);
    }
    assert StemsFrom(s, k, id);
  }

  lemma Issued(cfg: Flow.Config, past: Flow.History, key: Digest)
    requires Flow.Issues(cfg, past) && key in past.issued
    ensures Flow.IssueOk(cfg, past, past.issued[key])
  {
  }

  lemma Originated(cfg: Flow.Config, past: Flow.History, id: string)
    requires Flow.Origins(cfg, past) && id in past.origin
    ensures Flow.OriginOk(cfg, past.origin[id])
  {
  }

  /** Scope only narrows, end to end: a token of a family founded here, however many rotations later, and a response
      that carries it, stay within the scope of one accepted authorization request, which stayed within what
      its client was allowed at that time; and the family's first token had offline_access. */
  lemma ScopeNarrowsEndToEnd(cfg: Flow.Config, ttl: int, first: State, actions: seq<Action>, i: nat)
    requires Init(cfg, first) && IsRun(cfg, ttl, first, actions)
    requires i < |After(cfg, ttl, first, actions).families.answers|
    ensures var s := After(cfg, ttl, first, actions);
            var a := s.families.answers[i];
            var past := s.families.past;
            && a.heir in past.minted && a.heir in past.root && past.root[a.heir] in past.minted
            && past.minted[a.heir].scope == a.scope && past.minted[a.heir].userID == a.userID
            && past.minted[a.heir].clientID == a.clientID
            && (past.minted[past.root[a.heir]].familyID == ""
                || exists id :: StemsFrom(s, a.heir, id) && id in s.flow.past.origin
                     && WithinRequest(past.minted[a.heir], past.minted[past.root[a.heir]], s.flow.past.origin[id]))
  {
    hide Init, IsRun, After, Flow.Inv, Families.FlightInv, Families.Chains, Families.Heirs, Families.Generations;
    hide Families.Buckets, Families.Tombstones, Families.Revocations, Families.Drawn, WithinRequest, StemsFrom;
    hide Sources, FlightSourced, RootsSourced, Families.UnderRoot;
    InitInv(cfg, first);
    RunInv(cfg, ttl, first, actions);
    var s := After(cfg, ttl, first, actions);
    var a := s.families.answers[i];
    assert Families.AnswerOk(s.families.past, a);
    var root := s.families.past.root[a.heir];
    if s.families.past.minted[root].familyID != "" {
      RootWithinRequest(cfg, s, a.heir);
    }
  }

  /** An authorization request founds at most one refresh family. */
  lemma OneFamilyPerRequest(cfg: Flow.Config, ttl: int, first: State, actions: seq<Action>, j: Digest, k: Digest,
                            id: string)
    requires Init(cfg, first) && IsRun(cfg, ttl, first, actions)
    requires StemsFrom(After(cfg, ttl, first, actions), j, id) && StemsFrom(After(cfg, ttl, first, actions), k, id)
    ensures var past := After(cfg, ttl, first, actions).families.past; past.root[j] == past.root[k]
  {
    hide Init, IsRun, After, Families.Inv, FlightSourced, RootsSourced, Flow.StoreInv, Flow.FlightInv, Flow.Origins,
      Flow.IssueOk;
    hide Flow.GrantOk;
    InitInv(cfg, first);
    RunInv(cfg, ttl, first, actions);
  }
}
