/** Runs of the authorization flow, put together step by step. */
module FlowRuns {
  import opened Entities
  import opened Scopes
  import opened Consents
  import opened AuthorizationFlow
  import opened AuthorizationTheorems

  ghost predicate Leads(cfg: Config, s: State, actions: seq<Action>, t: State) {
    IsRun(cfg, s, actions) && After(cfg, s, actions) == t
  }

  lemma OneStep(cfg: Config, s: State, a: Action)
    requires Enabled(cfg, s, a)
    ensures Leads(cfg, s, [a], Step(cfg, s, a))
  {
    hide Step;
    var next, none := Step(cfg, s, a), [a][1..];
    assert none == [];
    assert IsRun(cfg, next, none) && After(cfg, next, none) == next;
    assert IsRun(cfg, s, [a]);
    assert After(cfg, s, [a]) == After(cfg, next, none);
  }

  lemma {:induction false} Advance(cfg: Config, s: State, actions: seq<Action>, t: State, a: Action)
    requires Leads(cfg, s, actions, t) && Enabled(cfg, t, a)
    ensures Leads(cfg, s, actions + [a], Step(cfg, t, a))
    decreases |actions|
  {
    hide Step;
    if actions == [] {
      assert actions + [a] == [a];
      OneStep(cfg, s, a);
    } else {
      assert (actions + [a])[1..] == actions[1..] + [a];
      Advance(cfg, Step(cfg, s, actions[0]), actions[1..], t, a);
    }
  }

  lemma Nowhere(cfg: Config, s: State)
    ensures Leads(cfg, s, [], s)
  {
  }

  lemma {:induction false} Compose(cfg: Config, s: State, first: seq<Action>, t: State, second: seq<Action>, u: State)
    requires Leads(cfg, s, first, t) && Leads(cfg, t, second, u)
    ensures Leads(cfg, s, first + second, u)
    decreases |first|
  {
    hide Step;
    if first == [] {
      assert first + second == second;
    } else {
      assert (first + second)[1..] == first[1..] + second;
      Compose(cfg, Step(cfg, s, first[0]), first[1..], t, second, u);
    }
  }

  lemma Regoto(s: State, h: nat, p: Proc, q: Proc)
    ensures Goto(Goto(s, h, p), h, q) == Goto(s, h, q)
    ensures h !in s.procs ==> Done(Goto(s, h, p), h) == s
  {
    assert s.procs[h := p][h := q] == s.procs[h := q];
    assert h !in s.procs ==> s.procs[h := p] - {h} == s.procs;
  }

  // What an accepted authorization request leaves on record
  function Remembered(s: State, ar: AuthRequest, client: Client): State {
    s.(drawn := s.drawn + {ar.id},
       past := s.past.(origin := s.past.origin[ar.id := Origin(client, ar.redirectURI, ar.scope, ar.nonce,
                                                                ar.codeChallenge, ar.codeChallengeMethod)]))
  }

  // ---- One request at a time, by what it does next ----

  lemma Draw(cfg: Config, s: State, sofar: seq<Action>, b: State, h: nat, ar: AuthRequest, login: Login,
             consented: bool, code: string, now: int)
    requires h !in b.procs && Fresh(b, code)
    requires Leads(cfg, s, sofar, Goto(b, h, Issuing(ar, login, consented)))
    ensures Leads(cfg, s, sofar + [DrawCode(h, code, now)],
                  Goto(b.(drawn := b.drawn + {code}), h,
                         StoringCode(ar, Digest(code), CodeFor(ar, login, now + cfg.codeTTL), consented)))
  {
    hide Leads, Base64Url, AuthorizationScope, ConsentKey, RequestedScopes, CodeFor;
    Advance(cfg, s, sofar, Goto(b, h, Issuing(ar, login, consented)), DrawCode(h, code, now));
    Regoto(b.(drawn := b.drawn + {code}), h, Issuing(ar, login, consented),
           StoringCode(ar, Digest(code), CodeFor(ar, login, now + cfg.codeTTL), consented));
  }

  lemma Keep(cfg: Config, s: State, sofar: seq<Action>, b: State, h: nat, p: Proc)
    returns (t: State)
    requires h !in b.procs && p.StoringCode? && Leads(cfg, s, sofar, Goto(b, h, p))
    ensures Leads(cfg, s, sofar + [StoreCode(h)], t)
    ensures t == b.(codes := b.codes[p.key := p.code], past := Stored(b.past, p))
  {
    hide Leads, AuthorizationScope, ConsentKey, RequestedScopes, Stored;
    Advance(cfg, s, sofar, Goto(b, h, p), StoreCode(h));
    Regoto(b, h, p, p);
    t := b.(codes := b.codes[p.key := p.code], past := Stored(b.past, p));
  }

  function LookedUp(s: State, ar: AuthRequest): State
    requires ar.clientID in s.clients
  {
    s.(lookups := s.lookups + {Lookup(ar.id, s.clients[ar.clientID])})
  }

  lemma LookUp(cfg: Config, s: State, sofar: seq<Action>, b: State, h: nat, ar: AuthRequest, login: Login)
    requires h !in b.procs && Leads(cfg, s, sofar, Goto(b, h, Proceeding(ar, login))) && ar.clientID in b.clients
    ensures Leads(cfg, s, sofar + [Proceed(h)],
                  Goto(LookedUp(b, ar), h, if b.clients[ar.clientID].requireConsent then ReadingConsent(ar, login)
                                           else Issuing(ar, login, false)))
  {
    hide Leads, AuthorizationScope, ConsentKey, RequestedScopes;
    Advance(cfg, s, sofar, Goto(b, h, Proceeding(ar, login)), Proceed(h));
    Regoto(LookedUp(b, ar), h, Proceeding(ar, login), ReadingConsent(ar, login));
    Regoto(LookedUp(b, ar), h, Proceeding(ar, login), Issuing(ar, login, false));
  }

  // proceedAfterAuthn, up to the decision
  lemma Consult(cfg: Config, s: State, sofar: seq<Action>, b: State, h: nat, ar: AuthRequest, login: Login)
    returns (actions: seq<Action>)
    requires h !in b.procs && Leads(cfg, s, sofar, Goto(b, h, Proceeding(ar, login)))
    requires ar.clientID in b.clients && b.clients[ar.clientID].requireConsent
    ensures var k := ConsentKey(login.userID, ar.clientID);
      Leads(cfg, s, actions,
            Goto(LookedUp(b, ar), h, Deciding(ar, login, if k in b.consents then Some(b.consents[k]) else None)))
  {
    hide Leads, AuthorizationScope, ConsentKey, RequestedScopes;
    LookUp(cfg, s, sofar, b, h, ar, login);
    actions := sofar + [Proceed(h)];
    var k, b1 := ConsentKey(login.userID, ar.clientID), LookedUp(b, ar);
    Advance(cfg, s, actions, Goto(b1, h, ReadingConsent(ar, login)), ReadConsent(h));
    Regoto(b1, h, ReadingConsent(ar, login),
           Deciding(ar, login, if k in b.consents then Some(b.consents[k]) else None));
    actions := actions + [ReadConsent(h)];
  }

  // The request is put back, as it is or with a new expiry
  lemma PutBack(cfg: Config, s: State, sofar: seq<Action>, b: State, h: nat, ar: AuthRequest)
    returns (actions: seq<Action>, t: State)
    requires h !in b.procs && Leads(cfg, s, sofar, Goto(b, h, Putting(ar)))
    ensures Leads(cfg, s, actions, t) && t == b.(requests := b.requests[ar.id := ar])
  {
    hide Leads, AuthorizationScope, ConsentKey, RequestedScopes;
    Advance(cfg, s, sofar, Goto(b, h, Putting(ar)), Put(h));
    Regoto(b, h, Putting(ar), Putting(ar));
    actions, t := sofar + [Put(h)], b.(requests := b.requests[ar.id := ar]);
  }

  lemma GiveUp(cfg: Config, s: State, sofar: seq<Action>, b: State, h: nat, p: Proc)
    returns (actions: seq<Action>)
    requires h !in b.procs && Leads(cfg, s, sofar, Goto(b, h, p))
    ensures Leads(cfg, s, actions, b)
  {
    hide Leads;
    Advance(cfg, s, sofar, Goto(b, h, p), Abort(h));
    Regoto(b, h, p, p);
    actions := sofar + [Abort(h)];
  }

  lemma DecideNow(cfg: Config, s: State, sofar: seq<Action>, b: State, h: nat, ar: AuthRequest, login: Login,
                  found: Option<Consent>, now: int)
    requires h !in b.procs && Leads(cfg, s, sofar, Goto(b, h, Deciding(ar, login, found)))
    ensures Leads(cfg, s, sofar + [Decide(h, now)],
                  Goto(b, h, if found.Some? && Covers(found.value.scopes, RequestedScopes(ar.scope)) then
                               Issuing(ar, login, true)
                             else Putting(ar.(expiresAt := now + CONSENT_EXPIRY))))
  {
    hide Leads, AuthorizationScope, ConsentKey, RequestedScopes, Covers;
    Advance(cfg, s, sofar, Goto(b, h, Deciding(ar, login, found)), Decide(h, now));
    Regoto(b, h, Deciding(ar, login, found), Issuing(ar, login, true));
    Regoto(b, h, Deciding(ar, login, found), Putting(ar.(expiresAt := now + CONSENT_EXPIRY)));
  }

  lemma TakeForConsent(cfg: Config, s: State, sofar: seq<Action>, b: State, h: nat, id: string, login: Login)
    requires h !in b.procs && id in b.requests && Leads(cfg, s, sofar, b)
    ensures Leads(cfg, s, sofar + [ConsumeForConsent(h, login, id)],
                  Goto(b.(requests := b.requests - {id}), h, Confirming(b.requests[id], login)))
  {
    hide Leads, AuthorizationScope;
    Advance(cfg, s, sofar, b, ConsumeForConsent(h, login, id));
  }

  function WithApprovals(b: State, ar: AuthRequest, login: Login): State {
    b.(past := b.past.(approvals := b.past.approvals +
                       ApprovalsOf(login.userID, ar.clientID, RequestedScopes(ar.scope))))
  }

  function Merged(b: State, ar: AuthRequest, login: Login): seq<string> {
    var k, want := ConsentKey(login.userID, ar.clientID), RequestedScopes(ar.scope);
    if k in b.consents then MergeScopes(b.consents[k].scopes, want) else want
  }

  lemma SayYes(cfg: Config, s: State, sofar: seq<Action>, b: State, h: nat, ar: AuthRequest, login: Login, now: int)
    requires h !in b.procs && Leads(cfg, s, sofar, Goto(b, h, Confirming(ar, login))) && !(now > ar.expiresAt)
    ensures Leads(cfg, s, sofar + [Approve(h, now)], Goto(WithApprovals(b, ar, login), h, Approving(ar, login)))
  {
    hide Leads, RequestedScopes, ConsentKey, AuthorizationScope, MergeScopes, ApprovalsOf;
    Advance(cfg, s, sofar, Goto(b, h, Confirming(ar, login)), Approve(h, now));
    Regoto(WithApprovals(b, ar, login), h, Confirming(ar, login), Approving(ar, login));
  }

  lemma Merge(cfg: Config, s: State, sofar: seq<Action>, b: State, h: nat, ar: AuthRequest, login: Login)
    requires h !in b.procs && Leads(cfg, s, sofar, Goto(b, h, Approving(ar, login)))
    ensures Leads(cfg, s, sofar + [ReadExisting(h)], Goto(b, h, Recording(ar, login, Merged(b, ar, login))))
  {
    hide Leads, RequestedScopes, ConsentKey, AuthorizationScope, MergeScopes;
    Advance(cfg, s, sofar, Goto(b, h, Approving(ar, login)), ReadExisting(h));
    Regoto(b, h, Approving(ar, login), Recording(ar, login, Merged(b, ar, login)));
  }

  lemma Record(cfg: Config, s: State, sofar: seq<Action>, b: State, h: nat, ar: AuthRequest, login: Login,
               merged: seq<string>)
    requires h !in b.procs && Leads(cfg, s, sofar, Goto(b, h, Recording(ar, login, merged)))
    ensures Leads(cfg, s, sofar + [RecordConsent(h)],
                  if login.userID == "" || ar.clientID == "" then b
                  else Goto(b.(consents := b.consents[ConsentKey(login.userID, ar.clientID)
                                                        := Consent(login.userID, ar.clientID, merged)]),
                              h, Issuing(ar, login, true)))
  {
    hide Leads, RequestedScopes, ConsentKey, AuthorizationScope, MergeScopes;
    var p := Recording(ar, login, merged);
    Advance(cfg, s, sofar, Goto(b, h, p), RecordConsent(h));
    Regoto(b, h, p, p);
    var rec := Consent(login.userID, ar.clientID, merged);
    Regoto(b.(consents := b.consents[ConsentKey(login.userID, ar.clientID) := rec]), h, p, Issuing(ar, login, true));
  }
}
