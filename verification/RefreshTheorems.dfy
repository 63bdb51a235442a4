/** What every interleaving of refreshes, code grants, revocations, reuse and sweeps guarantees. */
module RefreshTheorems {
  import opened Entities
  import opened Transactions
  import opened Scopes
  import opened RefreshFamilies

  ghost predicate IsRun(ttl: int, s: State, actions: seq<Action>)
    decreases |actions|
  {
    actions == [] || (Enabled(s, actions[0]) && IsRun(ttl, Step(ttl, s, actions[0]), actions[1..]))
  }

  ghost function After(ttl: int, s: State, actions: seq<Action>): State
    requires IsRun(ttl, s, actions)
    decreases |actions|
  {
    if actions == [] then s else After(ttl, Step(ttl, s, actions[0]), actions[1..])
  }

  ghost predicate Reachable(ttl: int, s: State) {
    exists first: State, actions: seq<Action> :: Init(first) && IsRun(ttl, first, actions) &&
      After(ttl, first, actions) == s
  }

  lemma {:induction false} RunInv(ttl: int, s: State, actions: seq<Action>)
    requires Inv(s) && IsRun(ttl, s, actions)
    ensures Inv(After(ttl, s, actions))
    decreases |actions|
  {
    hide Inv;
    if actions != [] {
      StepInv(ttl, s, actions[0]);
      RunInv(ttl, Step(ttl, s, actions[0]), actions[1..]);
    }
  }

  lemma ReachableInv(ttl: int, s: State)
    requires Reachable(ttl, s)
    ensures Inv(s)
  {
    hide Inv, Init, Step;
    var first: State, actions: seq<Action> :|
      Init(first) && IsRun(ttl, first, actions) && After(ttl, first, actions) == s;
    InitInv(first);
    RunInv(ttl, first, actions);
  }

  /** A family has at most one active token, and no token is both active and consumed. */
  lemma OneActiveTokenPerFamily(ttl: int, s: State)
    requires Reachable(ttl, s)
    ensures forall j, k :: j in s.active && k in s.active && j != k && s.active[j].familyID != "" ==>
              s.active[j].familyID != s.active[k].familyID
    ensures s.active.Keys !! s.consumed.Keys
  {
    hide Reachable, Heirs, Generations, Roots, FlightInv, Tokens, Base64Url;
    ReachableInv(ttl, s);
    forall j, k | j in s.active && k in s.active && j != k && s.active[j].familyID != ""
      ensures s.active[j].familyID != s.active[k].familyID
    {
      assert j in s.past.minted && k in s.past.minted;
    }
  }

  /** All tokens of a family, active or long gone, belong to the same grant; the active one is of the
      generation that counts the family's rotations. */
  lemma FamilyBelongsToOneGrant(ttl: int, s: State)
    requires Reachable(ttl, s)
    ensures forall j, k :: j in s.past.minted && k in s.past.minted ==>
              SameFamily(s.past.minted[j], s.past.minted[k]) ==> SameGrant(s.past.minted[j], s.past.minted[k])
    ensures forall k :: k in s.active && s.active[k].familyID != "" ==>
              s.active[k].generation == |Rotations(s.past.rotated, s.active[k].familyID)|
  {
    hide Reachable, Heirs, Roots, FlightInv, Tokens, Base64Url;
    ReachableInv(ttl, s);
    forall k | k in s.active && s.active[k].familyID != ""
      ensures s.active[k].generation == |Rotations(s.past.rotated, s.active[k].familyID)|
    {
      assert k in s.past.minted && k !in s.past.rotated;
    }
  }

  /** A secret yields at most one successful refresh, whose response carries the token that replaced it. */
  lemma AtMostOneRefreshPerSecret(ttl: int, s: State)
    requires Reachable(ttl, s)
    ensures forall i, j :: 0 <= i < j < |s.answers| ==> s.answers[i].key != s.answers[j].key
    ensures forall i :: 0 <= i < |s.answers| ==>
              && s.answers[i].key in s.past.rotated && s.answers[i].key !in s.active
              && s.answers[i].heir in s.past.minted && s.answers[i].key in s.past.minted
              && UnderRoot(s.past.minted[s.answers[i].heir], s.past.minted[s.answers[i].key])
  {
    hide Reachable, Chains, Generations, Roots, FlightInv, Tokens, Base64Url;
    ReachableInv(ttl, s);
    forall i | 0 <= i < |s.answers|
      ensures s.answers[i].key in s.past.rotated && s.answers[i].key !in s.active && s.answers[i].heir in s.past.minted
      ensures s.answers[i].key in s.past.minted
      ensures UnderRoot(s.past.minted[s.answers[i].heir], s.past.minted[s.answers[i].key])
    {
      var k := s.answers[i].key;
      assert AnswerOk(s.past, s.answers[i]) && k in s.past.heir;
    }
  }

  /** Until the rotated token's original expiry its tombstone is in the store, naming its user, client and family. */
  lemma TombstoneLastsToExpiry(ttl: int, s: State, k: Digest)
    requires Reachable(ttl, s) && k in s.past.rotated && s.now <= s.past.rotated[k].expiresAt
    ensures k in s.past.minted && k in s.consumed
    ensures s.consumed[k].userID == s.past.minted[k].userID && s.consumed[k].clientID == s.past.minted[k].clientID
    ensures s.consumed[k].expiresAt == s.past.minted[k].expiresAt
    ensures s.past.minted[k].familyID != "" ==> s.consumed[k].familyID == s.past.minted[k].familyID
    ensures k in s.past.heir && s.past.heir[k] in s.past.minted
    ensures s.consumed[k].familyID == s.past.minted[s.past.heir[k]].familyID
  {
    hide Reachable, Chains, Generations, Roots, FlightInv, Tokens, Base64Url;
    ReachableInv(ttl, s);
    assert k in s.past.heir;
  }

  lemma {:induction false} RevokedGrows(ttl: int, s: State, actions: seq<Action>, family: string)
    requires IsRun(ttl, s, actions) && family in s.revoked
    ensures family in After(ttl, s, actions).revoked
    decreases |actions|
  {
    if actions != [] {
      RevokedGrows(ttl, Step(ttl, s, actions[0]), actions[1..], family);
    }
  }

  /** Once a family is revoked, none of its tokens is ever active again, whatever was in flight. */
  lemma RevokedFamilyStaysDead(ttl: int, s: State, actions: seq<Action>, family: string)
    requires Reachable(ttl, s) && family in s.revoked && IsRun(ttl, s, actions)
    ensures forall k :: k in After(ttl, s, actions).active ==> After(ttl, s, actions).active[k].familyID != family
  {
    hide PastInv, FlightInv, Step, Reachable;
    ReachableInv(ttl, s);
    RunInv(ttl, s, actions);
    RevokedGrows(ttl, s, actions, family);
  }

  // The request an action belongs to
  function Actor(a: Action): Option<nat> {
    match a
    case Tick(_) => None
    case Sweep(_) => None
    case _ => Some(a.h)
  }

  lemma {:induction false} OthersLeaveAlone(ttl: int, s: State, actions: seq<Action>, h: nat)
    requires IsRun(ttl, s, actions) && h in s.procs && forall a :: a in actions ==> Actor(a) != Some(h)
    ensures h in After(ttl, s, actions).procs && After(ttl, s, actions).procs[h] == s.procs[h]
    decreases |actions|
  {
    if actions != [] {
      assert actions[0] in actions;
      OthersLeaveAlone(ttl, Step(ttl, s, actions[0]), actions[1..], h);
    }
  }

  /** A replay by the token's own client is caught: if it reads the store and then the clock no later than
      the token's original expiry, then whatever else runs in between, its next transaction revokes the family. */
  lemma ReplayIsCaught(ttl: int, s: State, h: nat, client: string, token: string, scope: string, between: seq<Action>)
    requires Reachable(ttl, s) && Digest(token) in s.past.rotated
    requires s.past.rotated[Digest(token)].clientID == client && s.now <= s.past.rotated[Digest(token)].expiresAt
    requires Enabled(s, Present(h, client, token, scope))
    requires forall a :: a in between ==> Actor(a) != Some(h)
    requires IsRun(ttl, Step(ttl, s, Present(h, client, token, scope)), between)
    requires var t := After(ttl, Step(ttl, s, Present(h, client, token, scope)), between);
      t.now <= s.past.rotated[Digest(token)].expiresAt
    ensures Digest(token) in s.past.minted
    ensures s.past.rotated[Digest(token)].expiresAt == s.past.minted[Digest(token)].expiresAt
    ensures s.past.minted[Digest(token)].clientID == client
    ensures var t := After(ttl, Step(ttl, s, Present(h, client, token, scope)), between);
            && Enabled(t, Judge(h))
            && var u := Step(ttl, t, Judge(h));
               h in u.procs && u.procs[h] == Revoking(Digest(token), s.past.rotated[Digest(token)])
  {
    hide Reachable;
    assert Digest(token) in s.past.minted && s.past.minted[Digest(token)].clientID == client
        && Digest(token) in s.consumed && s.consumed[Digest(token)] == s.past.rotated[Digest(token)]
        && s.past.rotated[Digest(token)].expiresAt == s.past.minted[Digest(token)].expiresAt by {
      hide Step, After, IsRun;
      TombstoneLastsToExpiry(ttl, s, Digest(token));
      ReachableInv(ttl, s);
      hide Chains, Generations, Roots, FlightInv, Tokens, Base64Url;
    }
    OthersLeaveAlone(ttl, Step(ttl, s, Present(h, client, token, scope)), between, h);
  }

  // A token that is on record and not active stays so
  lemma StepKeepsGone(ttl: int, s: State, a: Action, k: Digest)
    requires Enabled(s, a) && Inv(s) && k in s.past.minted && k !in s.active
    ensures k in Step(ttl, s, a).past.minted && k !in Step(ttl, s, a).active
  {
    hide Chains, Heirs, Generations, Roots, Buckets, Tombstones, Revocations, Drawn, Answered, AllApart, Unanswered;
    hide Base64Url, Tokens, TrimSpace, NewRotation, Knows, NewFamily;
    if a.Rotate? || a.StoreRoot? {
      assert OwnDraws(s.drawn, s.past, s.procs[a.h]);
    }
  }

  /** A refresh token that was revoked, rotated, burned or swept is never active again, in any continuation. */
  lemma {:induction false} GoneTokenStaysGone(ttl: int, s: State, actions: seq<Action>, k: Digest)
    requires Inv(s) && IsRun(ttl, s, actions) && k in s.past.minted && k !in s.active
    ensures k !in After(ttl, s, actions).active
    decreases |actions|
  {
    hide Inv, Step;
    if actions != [] {
      StepKeepsGone(ttl, s, actions[0], k);
      StepInv(ttl, s, actions[0]);
      GoneTokenStaysGone(ttl, Step(ttl, s, actions[0]), actions[1..], k);
    }
  }

  lemma BurningIsOnRecord(past: History, p: Proc)
    requires Knows(past, p) && p.Burning?
    ensures p.key in past.minted
  {
  }

  /** Revocation by the owner: once its delete has committed the token never refreshes again, whatever had read it. */
  lemma RevokedTokenStaysDead(ttl: int, s: State, h: nat, actions: seq<Action>)
    requires Reachable(ttl, s) && Enabled(s, Burn(h))
    requires IsRun(ttl, Step(ttl, s, Burn(h)), actions)
    ensures s.procs[h].key !in After(ttl, Step(ttl, s, Burn(h)), actions).active
  {
    hide Reachable, Inv, Knows;
    ReachableInv(ttl, s);
    InvKnows(s, h);
    BurningIsOnRecord(s.past, s.procs[h]);
    StepInv(ttl, s, Burn(h));
    GoneTokenStaysGone(ttl, Step(ttl, s, Burn(h)), actions, s.procs[h].key);
  }
}
