/** Revoking a refresh token (revokeRefreshToken): its own client ends it for good, and nobody else can. */
module TokenRevocation {
  import opened Entities
  import opened Transactions
  import opened Scopes
  import opened Handlers
  import opened Runs
  import opened TokenLife
  import R = RefreshFamilies
  import opened SoloRefresh

  /** A revocation takes away the presented token if the caller owns it, and no other token ever. */
  lemma RevocationIsExact(cfg: Settings, db: Db, token: string, clientID: string, now: int, key: Digest)
    ensures var after := Revoked(cfg, db, token, clientID, now).refresh;
      && (key in after <==>
            key in db.refresh && !(token != "" && key == Digest(token) && db.refresh[key].clientID == clientID))
      && (key in after ==> after[key] == db.refresh[key])
  {
    hide JwtRevoked;
  }

  lemma RefreshLeavesGone(cfg: Settings, db: Db, client: Client, presented: string, scope: string, d: Draws, now: int,
                          secret: string)
    requires Digest(secret) !in db.refresh && d.secret != secret
    ensures Digest(secret) !in Refreshed(cfg, db, client, presented, scope, d, now).0.refresh
  {
    hide Tokens, TrimSpace;
  }

  lemma ServeLeavesGone(cfg: Settings, clients: map<string, Client>, db: Db, call: Call, d: Draws, now: int,
                        secret: string)
    requires Digest(secret) !in db.refresh && d.secret != secret
    ensures Digest(secret) !in Handled(cfg, clients, db, call, d, now).0.refresh
  {
    hide Refreshed, JwtRevoked, Tokens, Flow.CodeRedeemable;
    match call
    case Refresh(client, presented, scope) => RefreshLeavesGone(cfg, db, client, presented, scope, d, now, secret);
    case Redeem(_, _, _, _) =>
    case Revoke(_, _) =>
    case _ =>
      hide Handled;
      OthersKeepTokens(cfg, clients, db, call, d, now);
  }

  lemma {:induction false} RunLeavesGone(cfg: Settings, db: Db, events: seq<Event>, secret: string)
    requires Digest(secret) !in db.refresh && forall e :: e in events ==> Undrawn(e, secret)
    ensures Digest(secret) !in After(cfg, db, events).refresh
    decreases |events|
  {
    hide Handled;
    if events != [] {
      var e := events[0];
      assert Undrawn(e, secret);
      if e.Serve? {
        ServeLeavesGone(cfg, e.clients, db, e.call, e.draws, e.at, secret);
      }
      RunLeavesGone(cfg, Next(cfg, db, e), events[1..], secret);
    }
  }

  lemma GoneIsRefused(cfg: Settings, db: Db, client: Client, secret: string, scope: string, d: Draws, now: int)
    requires Digest(secret) !in db.refresh
    ensures Refreshed(cfg, db, client, secret, scope, d, now).1 == Failed(InvalidGrant)
  {
    hide Tokens, TrimSpace;
  }

  lemma GoneIsInactive(cfg: Settings, db: Db, client: Client, secret: string, shown: string, hint: string, now: int)
    requires Digest(secret) !in db.refresh && TrimSpace(shown) == secret
    ensures !Introspected(cfg, db, shown, hint, client.id, now).1.ActiveRefresh?
  {
    hide TrimSpace, Verified;
  }

  // The part about refreshing, for any secret
  lemma RevokedIsRefused(cfg: Settings, clients: map<string, Client>, db: Db, owner: Client, secret: string, d: Draws,
                         now: int, events: seq<Event>, client: Client, scope: string, e: Draws, later: int)
    requires secret != "" && (Digest(secret) in db.refresh ==> db.refresh[Digest(secret)].clientID == owner.id)
    requires forall e :: e in events ==> Undrawn(e, secret)
    ensures var after := After(cfg, Handled(cfg, clients, db, Revoke(owner, secret), d, now).0, events);
      Handled(cfg, clients, after, Refresh(client, secret, scope), e, later).1 == Failed(InvalidGrant)
  {
    hide Refreshed, Revoked, After;
    RevocationIsExact(cfg, db, secret, owner.id, now, Digest(secret));
    var revoked := Revoked(cfg, db, secret, owner.id, now);
    RunLeavesGone(cfg, revoked, events, secret);
    GoneIsRefused(cfg, After(cfg, revoked, events), client, secret, scope, e, later);
  }

  /** Once its own client has revoked a refresh token, no refresh with it succeeds and no introspection shows it as
      active, whoever asks and whatever calls and sweeps have come in between. */
  lemma RevokedTokenIsDead(cfg: Settings, clients: map<string, Client>, db: Db, owner: Client, secret: string, d: Draws,
                           now: int, events: seq<Event>, client: Client, scope: string, shown: string, hint: string,
                           e: Draws, later: int)
    requires secret != "" && (Digest(secret) in db.refresh ==> db.refresh[Digest(secret)].clientID == owner.id)
    requires (forall e :: e in events ==> Undrawn(e, secret)) && TrimSpace(shown) == secret
    ensures var after := After(cfg, Handled(cfg, clients, db, Revoke(owner, secret), d, now).0, events);
      && Handled(cfg, clients, after, Refresh(client, secret, scope), e, later).1 == Failed(InvalidGrant)
      && !Handled(cfg, clients, after, Introspect(client, shown, hint), e, later).1.ActiveRefresh?
  {
    hide Refreshed, Introspected, TrimSpace, Revoked, After;
    RevokedIsRefused(cfg, clients, db, owner, secret, d, now, events, client, scope, e, later);
    RevocationIsExact(cfg, db, secret, owner.id, now, Digest(secret));
    var revoked := Revoked(cfg, db, secret, owner.id, now);
    RunLeavesGone(cfg, revoked, events, secret);
    GoneIsInactive(cfg, After(cfg, revoked, events), client, secret, shown, hint, later);
  }

  /** A revocation by anyone else, or of another token, spares the token: it lasts to its expiry as before. */
  lemma OthersCannotRevoke(cfg: Settings, clients: map<string, Client>, db: Db, secret: string, token: RefreshToken,
                           revoker: Client, presented: string, d: Draws, now: int, client: Client, scope: string,
                           e: Draws, later: int)
    requires Kept(db, Digest(secret), token, now) && now <= later
    requires presented == secret ==> revoker.id != token.clientID
    ensures var after := Handled(cfg, clients, db, Revoke(revoker, presented), d, now).0;
      Handled(cfg, clients, after, Refresh(client, secret, scope), e, later).1.Granted? <==>
        later <= token.expiresAt && client.id == token.clientID && Tokens(scope) <= Tokens(token.scope)
  {
    hide Refreshed, JwtRevoked, Tokens;
    Exchange(cfg, Revoked(cfg, db, presented, revoker.id, now), client, secret, scope, e, later, token);
  }

  /** revokeRefreshToken on its own is a run of the concurrent protocol: a lookup, and a delete of the caller's own. */
  lemma RevokeAloneIsARun(cfg: Settings, s: R.State, db: Db, h: nat, token: string, clientID: string)
    returns (actions: seq<R.Action>, t: R.State)
    requires Holds(db, s) && h !in s.procs
    ensures Leads(cfg.refreshTTL, s, actions, t) && Holds(Revoked(cfg, db, token, clientID, s.now), t)
    ensures t == s.(active := t.active)
  {
    hide Leads, JwtRevoked, R.Step;
    var key, load := Digest(token), R.LoadForRevocation(h, clientID, token);
    Start(cfg.refreshTTL, s);
    Advance(cfg.refreshTTL, s, [], s, load);
    RevocationSteps(cfg.refreshTTL, s, h, clientID, token);
    actions, t := [] + [load], R.Step(cfg.refreshTTL, s, load);
    if Owns(s, token, clientID) {
      Onward(cfg.refreshTTL, s, actions, h, R.Burning(key), t, R.Burn(h));
      actions, t := actions + [R.Burn(h)], R.Step(cfg.refreshTTL, t, R.Burn(h));
    }
  }

  predicate Owns(s: R.State, token: string, clientID: string) {
    token != "" && Digest(token) in s.active && s.active[Digest(token)].clientID == clientID
  }

  lemma RevocationSteps(ttl: int, s: R.State, h: nat, clientID: string, token: string)
    requires h !in s.procs
    ensures var loaded := R.Step(ttl, s, R.LoadForRevocation(h, clientID, token)); var key := Digest(token);
      if Owns(s, token, clientID) then
        && loaded == R.Goto(s, h, R.Burning(key)) && R.Enabled(loaded, R.Burn(h))
        && R.Step(ttl, loaded, R.Burn(h)) == s.(active := s.active - {key})
      else loaded == s
  {
    hide Tokens, TrimSpace, NewRotation, WithoutFamily, Swept, Base64Url;
    assert s.procs[h := R.Burning(Digest(token))] - {h} == s.procs;
  }

  lemma Start(ttl: int, s: R.State)
    ensures Leads(ttl, s, [], s)
  {
  }
}
