/** A redemption on its own is a run of the whole grant lifecycle: the code leaves the flow, and the refresh token that
    comes with the response enters its family. */
module SoloGrant {
  import opened Entities
  import opened Scopes
  import opened Handlers
  import F = AuthorizationFlow
  import R = RefreshFamilies
  import G = GrantLifecycle
  import SoloFlow
  import SoloRefresh
  import Transactions

  ghost predicate Leads(cfg: Settings, s: G.State, actions: seq<G.Action>, t: G.State) {
    G.IsRun(cfg.flow, cfg.refreshTTL, s, actions) && G.After(cfg.flow, cfg.refreshTTL, s, actions) == t
  }

  lemma Start(cfg: Settings, s: G.State)
    ensures Leads(cfg, s, [], s)
  {
  }

  lemma OneStep(cfg: Settings, s: G.State, a: G.Action)
    requires G.Enabled(cfg.flow, s, a)
    ensures Leads(cfg, s, [a], G.Step(cfg.flow, cfg.refreshTTL, s, a))
  {
    hide G.Step, G.Enabled;
    var t := G.Step(cfg.flow, cfg.refreshTTL, s, a);
    Start(cfg, t);
    assert [a][1..] == [] && [a][0] == a;
  }

  lemma {:induction false} Advance(cfg: Settings, s: G.State, actions: seq<G.Action>, t: G.State, a: G.Action)
    requires Leads(cfg, s, actions, t) && G.Enabled(cfg.flow, t, a)
    ensures Leads(cfg, s, actions + [a], G.Step(cfg.flow, cfg.refreshTTL, t, a))
    decreases |actions|
  {
    hide G.Step, G.Enabled;
    if actions == [] {
      assert actions + [a] == [a];
      OneStep(cfg, s, a);
    } else {
      assert (actions + [a])[1..] == actions[1..] + [a];
      Advance(cfg, G.Step(cfg.flow, cfg.refreshTTL, s, actions[0]), actions[1..], t, a);
    }
  }

  // The code is presented
  lemma Presented(cfg: Settings, s: F.State, h: nat, client: Client, code: string, redirectURI: string,
                  verifier: string)
    requires h !in s.procs && client.id in s.clients && s.clients[client.id] == client
    ensures var a := F.Redeem(h, client, code, redirectURI, verifier);
      && F.Enabled(cfg.flow, s, a) && !G.Responds(cfg.flow, s, a)
      && var t := F.Step(cfg.flow, s, a); var key := Digest(code);
         && t.codes == s.codes - {key} && t.requests == s.requests && t.consents == s.consents
         && t.past.grants == s.past.grants
         && t.procs == if key in s.codes then
              s.procs[h := F.Redeeming(client, redirectURI, verifier, key, s.codes[key])] else s.procs
  {
    hide AuthorizationScope, Base64Url, F.CodeRedeemable, Tokens;
    assert Digest(code) !in s.codes ==> s.codes - {Digest(code)} == s.codes;
  }

  predicate Offline(client: Client, code: AuthCode) {
    client.allowOffline && OFFLINE_ACCESS in Tokens(code.scope)
  }

  // The code is checked
  lemma Checked(cfg: Settings, s: F.State, h: nat, now: int)
    requires h in s.procs && s.procs[h].Redeeming?
    ensures var a, p := F.CheckCode(h, now), s.procs[h];
      var good := F.CodeRedeemable(cfg.flow, p.code, p.client.id, p.redirectURI, p.verifier, now);
      && F.Enabled(cfg.flow, s, a)
      && var t := F.Step(cfg.flow, s, a);
         && t.codes == s.codes && t.requests == s.requests && t.consents == s.consents && t.procs == s.procs - {h}
         && t.past.grants == s.past.grants + (if good then
              [F.Grant(p.key, p.client, p.redirectURI, p.verifier, p.code, Offline(p.client, p.code))] else [])
         && (G.Responds(cfg.flow, s, a) <==> good && Offline(p.client, p.code))
  {
    hide AuthorizationScope, Base64Url, F.CodeRedeemable, Tokens;
  }

  // The family is founded
  lemma Founded(ttl: int, s: R.State, h: nat, b: R.Action)
    requires h !in s.procs && b.DrawRoot? && b.h == h && R.Enabled(s, b)
    ensures var t := R.Step(ttl, s, b); var u := R.Step(ttl, t, R.StoreRoot(h));
      && R.Enabled(t, R.StoreRoot(h)) && u.procs == s.procs && u.consumed == s.consumed && u.now == s.now
      && u.active == s.active[Digest(b.secret) :=
           RefreshToken(b.userID, b.client, b.scope, b.authTime, s.now + ttl, b.amr, b.family, 0)]
  {
    hide Tokens, TrimSpace, Transactions.NewRotation, Transactions.WithoutFamily, Transactions.Swept, Base64Url;
    assert forall p: R.Proc {:trigger s.procs[h := p]} :: s.procs[h := p] - {h} == s.procs;
  }

  // Flow and families hold the buckets of the store, and nobody is in flight who was not before
  ghost predicate Holds(db: Db, s: G.State, t: G.State) {
    && SoloFlow.Stored(db, t.flow) && SoloRefresh.Holds(db, t.families)
    && t.flow.procs == s.flow.procs && t.families.procs == s.families.procs && t.families.now == s.families.now
  }

  // The redemption, by how far it gets
  lemma Outcome(cfg: Settings, db: Db, client: Client, code: string, redirectURI: string, verifier: string, d: Draws,
                now: int)
    ensures var r, key := Redeemed(cfg, db, client, code, redirectURI, verifier, d, now), Digest(code);
      && r.0.codes == db.codes - {key} && r.0.requests == db.requests && r.0.consents == db.consents
      && r.0.consumed == db.consumed
      && (r.1.Granted? <==>
            key in db.codes && F.CodeRedeemable(cfg.flow, db.codes[key], client.id, redirectURI, verifier, now))
      && (if r.1.Granted? && Offline(client, db.codes[key]) then
            var c := db.codes[key];
            && r.1.refreshToken == Some(d.secret)
            && r.0.refresh == db.refresh[Digest(d.secret) := RefreshToken(c.userID, client.id, c.scope, c.authTime,
                                                                          now + cfg.refreshTTL, c.amr, d.family, 0)]
          else (r.1.Granted? ==> r.1.refreshToken.None?) && r.0.refresh == db.refresh)
  {
    hide F.CodeRedeemable, Tokens;
  }

  // The code is out of the store, and in the hands of the request if it was there
  ghost predicate Begun(s: G.State, h: nat, client: Client, code: string, redirectURI: string, verifier: string,
                        t: G.State) {
    && t == s.(flow := t.flow) && t.flow.codes == s.flow.codes - {Digest(code)} && t.flow.requests == s.flow.requests
    && t.flow.consents == s.flow.consents && t.flow.past.grants == s.flow.past.grants
    && t.flow.procs == (if Digest(code) in s.flow.codes then
         s.flow.procs[h := F.Redeeming(client, redirectURI, verifier, Digest(code), s.flow.codes[Digest(code)])]
       else s.flow.procs)
    && t.flow.procs - {h} == s.flow.procs
  }

  lemma Begin(cfg: Settings, s: G.State, h: nat, client: Client, code: string, redirectURI: string, verifier: string)
    returns (actions: seq<G.Action>, t: G.State)
    requires h !in s.flow.procs && client.id in s.flow.clients && s.flow.clients[client.id] == client
    ensures Leads(cfg, s, actions, t) && Begun(s, h, client, code, redirectURI, verifier, t)
  {
    hide Leads, F.Step, F.Enabled, G.Responds;
    Presented(cfg, s.flow, h, client, code, redirectURI, verifier);
    var present := G.InFlow(F.Redeem(h, client, code, redirectURI, verifier));
    OneStep(cfg, s, present);
    actions, t := [present], G.Step(cfg.flow, cfg.refreshTTL, s, present);
  }

  // The request is done, and the refresh token that is due is in the store
  ghost predicate Settled(cfg: Settings, u: G.State, p: F.Proc, h: nat, d: Draws, t: G.State)
    requires p.Redeeming?
  {
    var now := u.families.now;
    var good := F.CodeRedeemable(cfg.flow, p.code, p.client.id, p.redirectURI, p.verifier, now);
    && t.flow.codes == u.flow.codes && t.flow.requests == u.flow.requests && t.flow.consents == u.flow.consents
    && t.flow.procs == u.flow.procs - {h} && t.families.procs == u.families.procs && t.families.now == now
    && t.families.consumed == u.families.consumed
    && |t.flow.past.grants| == |u.flow.past.grants| + (if good then 1 else 0)
    && (if good && Offline(p.client, p.code) then
          && t.source == u.source[Digest(d.secret) := |u.flow.past.grants|]
          && t.families.active == u.families.active[Digest(d.secret) :=
               RefreshToken(p.code.userID, p.client.id, p.code.scope, p.code.authTime, now + cfg.refreshTTL, p.code.amr,
                            d.family, 0)]
        else t.source == u.source && t.families.active == u.families.active)
  }

  // The check, with what it founds
  lemma Settle(cfg: Settings, s: G.State, sofar: seq<G.Action>, u: G.State, h: nat, d: Draws)
    returns (actions: seq<G.Action>, t: G.State)
    requires Leads(cfg, s, sofar, u) && h in u.flow.procs && u.flow.procs[h].Redeeming? && h !in u.families.procs
    requires R.Fresh(u.families, d.secret) && R.Fresh(u.families, d.family)
    ensures Leads(cfg, s, actions, t)
    ensures Settled(cfg, u, u.flow.procs[h], h, d, t)
  {
    hide Leads, F.CodeRedeemable, F.Step, R.Step, F.Enabled, Base64Url, G.Responds, Offline;
    var check := F.CheckCode(h, u.families.now);
    Checked(cfg, u.flow, h, u.families.now);
    if G.Responds(cfg.flow, u.flow, check) {
      var a := G.GrantWithRefresh(check, h, d.secret, d.family);
      var b := G.Founding(u, check, cfg.flow, h, d.secret, d.family);
      Founded(cfg.refreshTTL, u.families, h, b);
      Advance(cfg, s, sofar, u, a);
      var v := G.Step(cfg.flow, cfg.refreshTTL, u, a);
      var store := G.InFamilies(R.StoreRoot(h));
      Advance(cfg, s, sofar + [a], v, store);
      actions, t := sofar + [a] + [store], G.Step(cfg.flow, cfg.refreshTTL, v, store);
    } else {
      Advance(cfg, s, sofar, u, G.InFlow(check));
      actions, t := sofar + [G.InFlow(check)], G.Step(cfg.flow, cfg.refreshTTL, u, G.InFlow(check));
    }
  }

  // The state a redemption leaves behind, and what the response adds to it
  ghost predicate Matches(s: G.State, r: (Db, Response), t: G.State) {
    && Holds(r.0, s, t)
    && |t.flow.past.grants| == |s.flow.past.grants| + (if r.1.Granted? then 1 else 0)
    && t.source == if r.1.Granted? && r.1.refreshToken.Some? then
         s.source[Digest(r.1.refreshToken.value) := |s.flow.past.grants|] else s.source
  }

  lemma UnknownCode(cfg: Settings, s: G.State, db: Db, h: nat, client: Client, code: string, redirectURI: string,
                    verifier: string, d: Draws)
    returns (actions: seq<G.Action>, t: G.State)
    requires Holds(db, s, s) && h !in s.flow.procs && Digest(code) !in s.flow.codes
    requires client.id in s.flow.clients && s.flow.clients[client.id] == client
    ensures Leads(cfg, s, actions, t)
    ensures Matches(s, Redeemed(cfg, db, client, code, redirectURI, verifier, d, s.families.now), t)
  {
    hide Leads, F.CodeRedeemable, Redeemed, Offline, G.Step, SameFront;
    Outcome(cfg, db, client, code, redirectURI, verifier, d, s.families.now);
    actions, t := Begin(cfg, s, h, client, code, redirectURI, verifier);
  }

  lemma KnownCode(cfg: Settings, s: G.State, db: Db, h: nat, client: Client, code: string, redirectURI: string,
                  verifier: string, d: Draws)
    returns (actions: seq<G.Action>, t: G.State)
    requires Holds(db, s, s) && h !in s.flow.procs && h !in s.families.procs && Digest(code) in s.flow.codes
    requires client.id in s.flow.clients && s.flow.clients[client.id] == client
    requires R.Fresh(s.families, d.secret) && R.Fresh(s.families, d.family)
    ensures Leads(cfg, s, actions, t)
    ensures Matches(s, Redeemed(cfg, db, client, code, redirectURI, verifier, d, s.families.now), t)
  {
    hide Leads, R.Fresh, Redeemed, Settled, Matches, G.Step, SameFront;
    var u;
    actions, u := Begin(cfg, s, h, client, code, redirectURI, verifier);
    actions, t := Settle(cfg, s, actions, u, h, d);
    Conclusion(cfg, s, db, h, client, code, redirectURI, verifier, d, u, t);
  }

  lemma Conclusion(cfg: Settings, s: G.State, db: Db, h: nat, client: Client, code: string, redirectURI: string,
                   verifier: string, d: Draws, u: G.State, t: G.State)
    requires Holds(db, s, s) && h !in s.flow.procs && Digest(code) in s.flow.codes
    requires Begun(s, h, client, code, redirectURI, verifier, u) && Settled(cfg, u, u.flow.procs[h], h, d, t)
    ensures Matches(s, Redeemed(cfg, db, client, code, redirectURI, verifier, d, s.families.now), t)
  {
    hide F.CodeRedeemable, Redeemed, Offline, SameFront;
    Outcome(cfg, db, client, code, redirectURI, verifier, d, s.families.now);
  }

  /** tokenAuthorizationCode on its own is a run of the grant lifecycle, on the code bucket and on the refresh bucket:
      a response with a refresh token founds the family that the token's secret belongs to. */
  lemma GrantAlone(cfg: Settings, s: G.State, db: Db, h: nat, client: Client, code: string, redirectURI: string,
                   verifier: string, d: Draws)
    returns (actions: seq<G.Action>, t: G.State)
    requires Holds(db, s, s) && h !in s.flow.procs && h !in s.families.procs
    requires client.id in s.flow.clients && s.flow.clients[client.id] == client
    requires R.Fresh(s.families, d.secret) && R.Fresh(s.families, d.family)
    ensures Leads(cfg, s, actions, t)
    ensures Matches(s, Redeemed(cfg, db, client, code, redirectURI, verifier, d, s.families.now), t)
  {
    hide Leads, R.Fresh, Redeemed, Matches, G.Step;
    if Digest(code) in s.flow.codes {
      actions, t := KnownCode(cfg, s, db, h, client, code, redirectURI, verifier, d);
    } else {
      actions, t := UnknownCode(cfg, s, db, h, client, code, redirectURI, verifier, d);
    }
  }
}
