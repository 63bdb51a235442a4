/** A refresh that runs on its own is a run of the concurrent protocol: the handler as a function and the
    protocol's steps describe the same program. */
module SoloRefresh {
  import opened Entities
  import opened Transactions
  import opened Scopes
  import opened Handlers
  import R = RefreshFamilies
  import T = RefreshTheorems

  lemma OneMore(ttl: int, s: R.State, actions: seq<R.Action>, a: R.Action)
    requires T.IsRun(ttl, s, actions) && R.Enabled(T.After(ttl, s, actions), a)
    ensures T.IsRun(ttl, s, actions + [a]) && T.After(ttl, s, actions + [a]) == R.Step(ttl, T.After(ttl, s, actions), a)
    decreases |actions|
  {
    hide R.Step;
    if actions == [] {
      assert [a][1..] == [];
      assert actions + [a] == [a];
    } else {
      assert (actions + [a])[1..] == actions[1..] + [a];
      OneMore(ttl, R.Step(ttl, s, actions[0]), actions[1..], a);
    }
  }

  // A state after a run, and the run that led there
  ghost predicate Leads(ttl: int, s: R.State, actions: seq<R.Action>, t: R.State) {
    T.IsRun(ttl, s, actions) && T.After(ttl, s, actions) == t
  }

  lemma Advance(ttl: int, s: R.State, actions: seq<R.Action>, t: R.State, a: R.Action)
    requires Leads(ttl, s, actions, t) && R.Enabled(t, a)
    ensures Leads(ttl, s, actions + [a], R.Step(ttl, t, a))
  {
    hide R.Step;
    OneMore(ttl, s, actions, a);
  }

  // The refresh buckets of a store are those of a protocol state
  predicate Holds(db: Db, s: R.State) {
    db.refresh == s.active && db.consumed == s.consumed
  }

  lemma TombstoneLookup(ttl: int, s: R.State, h: nat, client: string, token: string, scope: string)
    returns (actions: seq<R.Action>, t: R.State)
    requires h !in s.procs
    ensures Leads(ttl, s, actions, t)
    ensures var key := Digest(token);
      if key in s.consumed && !(s.now > s.consumed[key].expiresAt) then
        t == (if s.consumed[key].clientID == client then R.Goto(s, h, R.Revoking(key, s.consumed[key])) else s)
      else t == R.Goto(s, h, R.Loading(client, key, TrimSpace(scope)))
  {
    hide TrimSpace;
    assert Leads(ttl, s, [], s);
    var present := R.Present(h, client, token, scope);
    Advance(ttl, s, [], s, present);
    var s1 := R.Step(ttl, s, present);
    Advance(ttl, s, [] + [present], s1, R.Judge(h));
    actions, t := [] + [present] + [R.Judge(h)], R.Step(ttl, s1, R.Judge(h));
    assert s1.procs - {h} == s.procs;
    assert forall p {:trigger s1.procs[h := p]} :: s1.procs[h := p] == s.procs[h := p];
  }

  // One step from a state in which only h is in flight
  lemma Onward(ttl: int, s: R.State, actions: seq<R.Action>, h: nat, p: R.Proc, t: R.State, a: R.Action)
    requires h !in s.procs && Leads(ttl, s, actions, t) && t.procs == s.procs[h := p] && R.Enabled(t, a)
    ensures Leads(ttl, s, actions + [a], R.Step(ttl, t, a))
    ensures t.procs - {h} == s.procs && forall q {:trigger t.procs[h := q]} :: t.procs[h := q] == s.procs[h := q]
  {
    hide R.Step;
    Advance(ttl, s, actions, t, a);
  }

  // The token is expired or someone else's: it is burned if it is expired
  lemma Refusal(ttl: int, s: R.State, actions: seq<R.Action>, h: nat, p: R.Proc)
    returns (more: seq<R.Action>, t: R.State)
    requires h !in s.procs && p.Checking? && Leads(ttl, s, actions, R.Goto(s, h, p))
    requires s.now > p.prior.expiresAt || p.prior.clientID != p.client
    ensures Leads(ttl, s, more, t)
    ensures t == if s.now > p.prior.expiresAt then s.(active := s.active - {p.key}) else s
  {
    hide Leads;
    var s1 := R.Goto(s, h, p);
    Onward(ttl, s, actions, h, p, s1, R.Check(h));
    var s2 := R.Step(ttl, s1, R.Check(h));
    more := actions + [R.Check(h)];
    Onward(ttl, s, more, h, R.Failing(p.key, p.prior), s2, R.CheckAgain(h));
    t := R.Step(ttl, s2, R.CheckAgain(h));
    more := more + [R.CheckAgain(h)];
    if s.now > p.prior.expiresAt {
      Onward(ttl, s, more, h, R.Burning(p.key), t, R.Burn(h));
      more, t := more + [R.Burn(h)], R.Step(ttl, t, R.Burn(h));
    }
  }

  // A wider scope is refused; otherwise the rotation is prepared
  lemma Preparation(ttl: int, s: R.State, actions: seq<R.Action>, h: nat, p: R.Proc, d: Draws)
    returns (more: seq<R.Action>, t: R.State)
    requires h !in s.procs && p.Checking? && Leads(ttl, s, actions, R.Goto(s, h, p))
    requires !(s.now > p.prior.expiresAt) && p.prior.clientID == p.client
    requires R.Fresh(s, d.secret) && R.Fresh(s, d.family)
    ensures Leads(ttl, s, more, t)
    ensures if p.scope != "" && !(Tokens(p.scope) <= Tokens(p.prior.scope)) then t == s
            else
              var granted := if p.scope == "" then p.prior.scope else p.scope;
              var r := NewRotation(p.prior, p.client, granted, d.secret, d.family, s.now, ttl);
              t == R.Goto(s, h, R.Rotating(p.key, p.prior, r)).(drawn := s.drawn + {d.secret, d.family})
  {
    hide Leads, Tokens, Base64Url, NewRotation;
    var s1 := R.Goto(s, h, p);
    Onward(ttl, s, actions, h, p, s1, R.Check(h));
    var s2 := R.Step(ttl, s1, R.Check(h));
    more := actions + [R.Check(h)];
    var prepare := R.Prepare(h, d.secret, d.family);
    Onward(ttl, s, more, h, R.Preparing(p.client, p.key, p.scope, p.prior), s2, prepare);
    more, t := more + [prepare], R.Step(ttl, s2, prepare);
  }

  // The swap succeeds and the response goes out
  lemma Rotated(ttl: int, s: R.State, actions: seq<R.Action>, h: nat, p: R.Proc, u: R.State)
    returns (more: seq<R.Action>, t: R.State)
    requires h !in s.procs && p.Rotating? && Leads(ttl, s, actions, u) && p.key in u.active
    requires u.procs == s.procs[h := p]
    ensures Leads(ttl, s, more, t) && t.procs == s.procs && t.now == u.now
    ensures t.active == (u.active - {p.key})[p.rotation.key := p.rotation.next]
    ensures t.consumed == u.consumed[p.key := p.rotation.tombstone]
    ensures t.answers == u.answers + [R.Answer(p.key, p.rotation.key, p.rotation.next.userID, p.rotation.next.clientID,
                                               p.rotation.next.scope)]
  {
    hide Leads, R.Succession;
    Onward(ttl, s, actions, h, p, u, R.Rotate(h));
    var s1 := R.Step(ttl, u, R.Rotate(h));
    more := actions + [R.Rotate(h)];
    Onward(ttl, s, more, h, R.Answering(p.key, p.rotation), s1, R.Respond(h));
    more, t := more + [R.Respond(h)], R.Step(ttl, s1, R.Respond(h));
  }

  // The token is good
  lemma Redemption(ttl: int, s: R.State, actions: seq<R.Action>, h: nat, p: R.Proc, d: Draws)
    returns (more: seq<R.Action>, t: R.State)
    requires h !in s.procs && p.Checking? && Leads(ttl, s, actions, R.Goto(s, h, p))
    requires !(s.now > p.prior.expiresAt) && p.prior.clientID == p.client && p.key in s.active
    requires R.Fresh(s, d.secret) && R.Fresh(s, d.family)
    ensures Leads(ttl, s, more, t) && t.now == s.now && t.procs == s.procs
    ensures if p.scope != "" && !(Tokens(p.scope) <= Tokens(p.prior.scope)) then t == s
            else
              var granted := if p.scope == "" then p.prior.scope else p.scope;
              var r := NewRotation(p.prior, p.client, granted, d.secret, d.family, s.now, ttl);
              && t.active == (s.active - {p.key})[r.key := r.next] && t.consumed == s.consumed[p.key := r.tombstone]
              && t.answers == s.answers + [R.Answer(p.key, Digest(d.secret), p.prior.userID, p.client, granted)]
  {
    hide Leads, Tokens, R.Fresh;
    more, t := Preparation(ttl, s, actions, h, p, d);
    if p.scope == "" || Tokens(p.scope) <= Tokens(p.prior.scope) {
      more, t := Rotated(ttl, s, more, h, t.procs[h], t);
    }
  }

  // A replay by the token's own client revokes the family; anyone else's changes nothing
  lemma Replay(ttl: int, s: R.State, h: nat, client: string, token: string, scope: string)
    returns (actions: seq<R.Action>, t: R.State)
    requires h !in s.procs && Digest(token) in s.consumed && !(s.now > s.consumed[Digest(token)].expiresAt)
    ensures Leads(ttl, s, actions, t) && t.now == s.now && t.procs == s.procs && t.answers == s.answers
    ensures t.consumed == s.consumed
    ensures t.active == if s.consumed[Digest(token)].clientID == client then
        WithoutFamily(s.active, s.consumed[Digest(token)].familyID)
                        else s.active
  {
    hide Leads, WithoutFamily, TrimSpace;
    var key := Digest(token);
    actions, t := TombstoneLookup(ttl, s, h, client, token, scope);
    if s.consumed[key].clientID == client {
      Onward(ttl, s, actions, h, R.Revoking(key, s.consumed[key]), t, R.RevokeFamily(h));
      actions, t := actions + [R.RevokeFamily(h)], R.Step(ttl, t, R.RevokeFamily(h));
    }
  }

  lemma TokenLookup(ttl: int, s: R.State, h: nat, client: string, token: string, scope: string)
    returns (actions: seq<R.Action>, t: R.State)
    requires h !in s.procs && !(Digest(token) in s.consumed && !(s.now > s.consumed[Digest(token)].expiresAt))
    ensures Leads(ttl, s, actions, t)
    ensures t == if Digest(token) !in s.active then s
                 else R.Goto(s, h, R.Checking(client, Digest(token), TrimSpace(scope), s.active[Digest(token)]))
  {
    hide Leads, TrimSpace;
    actions, t := TombstoneLookup(ttl, s, h, client, token, scope);
    Onward(ttl, s, actions, h, R.Loading(client, Digest(token), TrimSpace(scope)), t, R.Load(h));
    actions, t := actions + [R.Load(h)], R.Step(ttl, t, R.Load(h));
  }

  // The state a handler leaves behind, and the response it adds: the new secret, with the login of the new token
  ghost predicate Matches(s: R.State, key: Digest, d: Draws, r: (Db, Response), t: R.State) {
    && r.0.refresh == t.active && r.0.consumed == t.consumed && t.now == s.now && t.procs == s.procs
    && t.answers == s.answers + (if r.1.Granted? then
         [R.Answer(key, Digest(d.secret), r.1.userID, r.1.clientID, r.1.scope)] else [])
    && (r.1.Granted? ==>
          && r.1.refreshToken == Some(d.secret) && Digest(d.secret) in t.active
          && t.active[Digest(d.secret)].authTime == r.1.authTime && t.active[Digest(d.secret)].amr == r.1.amr)
  }

  lemma ReplayedAlone(cfg: Settings, s: R.State, db: Db, h: nat, client: Client, token: string, scope: string, d: Draws)
    returns (actions: seq<R.Action>, t: R.State)
    requires Holds(db, s) && h !in s.procs
    requires Digest(token) in s.consumed && !(s.now > s.consumed[Digest(token)].expiresAt)
    ensures Leads(cfg.refreshTTL, s, actions, t)
    ensures Matches(s, Digest(token), d, Refreshed(cfg, db, client, token, scope, d, s.now), t)
  {
    hide Leads, TrimSpace, Tokens, WithoutFamily, NewRotation;
    actions, t := Replay(cfg.refreshTTL, s, h, client.id, token, scope);
  }

  predicate Replays(s: R.State, key: Digest) {
    key in s.consumed && !(s.now > s.consumed[key].expiresAt)
  }

  predicate Suits(s: R.State, key: Digest, client: Client) {
    key in s.active && !(s.now > s.active[key].expiresAt) && s.active[key].clientID == client.id
  }

  predicate Widens(wanted: string, granted: string) {
    wanted != "" && !(Tokens(wanted) <= Tokens(granted))
  }

  // The rotation the handler prepares
  function RotationFor(ttl: int, s: R.State, key: Digest, client: Client, wanted: string, d: Draws): Rotation
    requires key in s.active
  {
    var prior := s.active[key];
    NewRotation(prior, client.id, if wanted == "" then prior.scope else wanted, d.secret, d.family, s.now, ttl)
  }

  lemma Refuses(cfg: Settings, s: R.State, db: Db, client: Client, token: string, scope: string, d: Draws)
    requires Holds(db, s) && !Replays(s, Digest(token)) && !Suits(s, Digest(token), client)
    ensures var r, key := Refreshed(cfg, db, client, token, scope, d, s.now), Digest(token);
      r.1.Failed? && r.0 == if key in s.active && s.now > s.active[key].expiresAt then
        db.(refresh := db.refresh - {key}) else db
  {
    hide TrimSpace, Tokens, NewRotation, WithRotation, WithoutFamily;
  }

  lemma Grants(cfg: Settings, s: R.State, db: Db, client: Client, token: string, scope: string, d: Draws)
    requires Holds(db, s) && !Replays(s, Digest(token)) && Suits(s, Digest(token), client)
    ensures var r, key, wanted := Refreshed(cfg, db, client, token, scope, d, s.now), Digest(token), TrimSpace(scope);
      if Widens(wanted, s.active[key].scope) then r == (db, Failed(InvalidScope))
      else
        var rotation := RotationFor(cfg.refreshTTL, s, key, client, wanted, d);
        && r.0 == WithRotation(db, key, rotation) && r.1.Granted?
        && r.1.userID == s.active[key].userID && r.1.clientID == client.id && r.1.scope == rotation.next.scope
        && r.1.authTime == s.active[key].authTime && r.1.amr == s.active[key].amr
        && r.1.refreshToken == Some(d.secret)
  {
    hide TrimSpace, Tokens, WithoutFamily;
  }

  lemma UnsuitedAlone(cfg: Settings, s: R.State, db: Db, h: nat, client: Client, token: string, scope: string, d: Draws)
    returns (actions: seq<R.Action>, t: R.State)
    requires Holds(db, s) && h !in s.procs && !Replays(s, Digest(token)) && !Suits(s, Digest(token), client)
    ensures Leads(cfg.refreshTTL, s, actions, t)
    ensures Matches(s, Digest(token), d, Refreshed(cfg, db, client, token, scope, d, s.now), t)
  {
    hide Leads, TrimSpace, R.Step, Refreshed;
    Refuses(cfg, s, db, client, token, scope, d);
    actions, t := TokenLookup(cfg.refreshTTL, s, h, client.id, token, scope);
    if Digest(token) in s.active {
      actions, t := Refusal(cfg.refreshTTL, s, actions, h, t.procs[h]);
    }
  }

  lemma SuitedAlone(cfg: Settings, s: R.State, db: Db, h: nat, client: Client, token: string, scope: string, d: Draws)
    returns (actions: seq<R.Action>, t: R.State)
    requires Holds(db, s) && h !in s.procs && !Replays(s, Digest(token)) && Suits(s, Digest(token), client)
    requires R.Fresh(s, d.secret) && R.Fresh(s, d.family)
    ensures Leads(cfg.refreshTTL, s, actions, t)
    ensures Matches(s, Digest(token), d, Refreshed(cfg, db, client, token, scope, d, s.now), t)
  {
    hide Leads, TrimSpace, Tokens, R.Fresh, R.Step, Refreshed;
    Grants(cfg, s, db, client, token, scope, d);
    actions, t := TokenLookup(cfg.refreshTTL, s, h, client.id, token, scope);
    actions, t := Redemption(cfg.refreshTTL, s, actions, h, t.procs[h], d);
  }

  /** Refreshed, the handler as a function, is what the protocol does when nobody else moves: same buckets, and a
      token response exactly when the function grants one. */
  lemma RefreshAloneIsARun(cfg: Settings, s: R.State, db: Db, h: nat, client: Client, token: string, scope: string,
                           d: Draws)
    returns (actions: seq<R.Action>, t: R.State)
    requires Holds(db, s) && h !in s.procs && R.Fresh(s, d.secret) && R.Fresh(s, d.family)
    ensures Leads(cfg.refreshTTL, s, actions, t)
    ensures Matches(s, Digest(token), d, Refreshed(cfg, db, client, token, scope, d, s.now), t)
  {
    hide Leads, Refreshed, R.Fresh, Matches;
    var key := Digest(token);
    if Replays(s, key) {
      actions, t := ReplayedAlone(cfg, s, db, h, client, token, scope, d);
    } else if !Suits(s, key, client) {
      actions, t := UnsuitedAlone(cfg, s, db, h, client, token, scope, d);
    } else {
      actions, t := SuitedAlone(cfg, s, db, h, client, token, scope, d);
    }
  }
}
