/** When an access or id token is good (verifyJWT, introspectJWT, handleUserInfo): exactly within its window, until its
    owner revokes it. */
module AccessTokens {
  import opened Entities
  import opened Handlers
  import opened Runs
  import opened Revocation
  import Scopes

  const NANOS: int := 1_000_000_000

  // From thirty seconds before nbf to thirty seconds after exp, where the token has them
  predicate InWindow(claims: Claims, now: int) {
    && (claims.nbf.Some? ==> (claims.nbf.value - 30) * NANOS <= now)
    && (claims.exp.Some? ==> now <= (claims.exp.value + 30) * NANOS)
  }

  // A token of this issuer, at a moment within its window
  predicate Genuine(cfg: Settings, token: string, now: int) {
    cfg.jwt(token).Some? && cfg.jwt(token).value.issuerOk && InWindow(cfg.jwt(token).value, now)
  }

  // The tombstone of a revoked token, as long as it counts
  predicate Barred(revoked: map<string, int>, jti: string, now: int) {
    jti != "" && jti in revoked && now <= revoked[jti]
  }

  /** verifyJWT accepts a token exactly when it is genuine, within its window and not barred by a tombstone; it drops
      the token's tombstone exactly when that no longer counts, and no other. */
  lemma VerifiedExactly(cfg: Settings, revoked: map<string, int>, token: string, now: int)
    ensures Verified(cfg, revoked, token, now).1 ==
            if Genuine(cfg, token, now) && !Barred(revoked, cfg.jwt(token).value.jti, now) then cfg.jwt(token) else None
    ensures forall jti :: jti in Verified(cfg, revoked, token, now).0 ==>
              jti in revoked && Verified(cfg, revoked, token, now).0[jti] == revoked[jti]
    ensures forall jti :: Barred(revoked, jti, now) ==> jti in Verified(cfg, revoked, token, now).0
    ensures Genuine(cfg, token, now) && cfg.jwt(token).value.jti != "" &&
              cfg.jwt(token).value.jti in Verified(cfg, revoked, token, now).0 ==>
              Barred(revoked, cfg.jwt(token).value.jti, now)
  {
  }

  // Nobody revokes this token as its owner
  predicate Unrevoked(cfg: Settings, e: Event, jti: string) {
    e.Serve? && e.call.Revoke? && cfg.jwt(e.call.token).Some? && cfg.jwt(e.call.token).value.jti == jti ==>
      cfg.jwt(e.call.token).value.owner != e.call.client.id
  }

  lemma ServeBarsNothing(cfg: Settings, clients: map<string, Client>, db: Db, call: Call, d: Draws, now: int,
                         jti: string)
    requires jti !in db.revoked && Unrevoked(cfg, Serve(now, clients, call, d), jti)
    ensures jti !in Handled(cfg, clients, db, call, d, now).0.revoked
  {
    hide Verified, Introspected;
    match call
    case Introspect(client, token, hint) =>
      IntrospectedRevoked(cfg, db, token, hint, client.id, now);
      VerifiedExactly(cfg, db.revoked, Scopes.TrimSpace(token), now);
    case UserInfo(token) => VerifiedExactly(cfg, db.revoked, token, now);
    case Revoke(client, token) => VerifiedExactly(cfg, db.revoked, token, now);
    case _ =>
      hide Handled;
      OthersKeepTombstones(cfg, clients, db, call, d, now);
  }

  lemma {:induction false} RunBarsNothing(cfg: Settings, db: Db, events: seq<Event>, jti: string)
    requires jti !in db.revoked && forall e :: e in events ==> Unrevoked(cfg, e, jti)
    ensures jti !in After(cfg, db, events).revoked
    decreases |events|
  {
    hide Handled;
    if events != [] {
      var e := events[0];
      assert Unrevoked(cfg, e, jti);
      if e.Serve? {
        ServeBarsNothing(cfg, e.clients, db, e.call, e.draws, e.at, jti);
      }
      RunBarsNothing(cfg, Next(cfg, db, e), events[1..], jti);
    }
  }

  // What the two endpoints say of a token with these claims, or of one that is not good. The token is no refresh token;
  // introspection trims what it is given.
  predicate Tells(cfg: Settings, db: Db, token: string, claims: Option<Claims>, shown: string, hint: string,
                  client: Client, d: Draws, now: int) {
    && (token != "" && Scopes.TrimSpace(shown) == token && Digest(token) !in db.refresh ==>
        Handled(cfg, map[], db, Introspect(client, shown, hint), d, now).1 ==
        if claims.Some? && client.id != "" && client.id in claims.value.holders then ActiveJWT(claims.value)
        else Inactive)
    && Handled(cfg, map[], db, UserInfo(token), d, now).1 ==
       (if token == "" then Failed(MissingToken)
        else if claims.Some? && claims.value.access then Profile(claims.value) else Failed(InvalidToken))
  }

  lemma EndpointsTell(cfg: Settings, db: Db, token: string, shown: string, hint: string, client: Client, d: Draws,
                      now: int)
    ensures var good := Genuine(cfg, token, now) && !Barred(db.revoked, cfg.jwt(token).value.jti, now);
      Tells(cfg, db, token, if good then cfg.jwt(token) else None, shown, hint, client, d, now)
  {
    hide Verified, InWindow, Barred, Scopes.TrimSpace;
    VerifiedExactly(cfg, db.revoked, token, now);
  }

  /** A token that nobody has revoked is good exactly within its window, whatever calls and sweeps come in between, also
      revocations of it by others and of other tokens: introspection shows it to its holders and to nobody else, and
      userinfo answers for it if it is an access token. */
  lemma UnrevokedTokenIsGood(cfg: Settings, db: Db, token: string, events: seq<Event>, shown: string, hint: string,
                             client: Client, d: Draws, later: int)
    requires cfg.jwt(token).Some? && cfg.jwt(token).value.jti !in db.revoked
    requires forall e :: e in events ==> Unrevoked(cfg, e, cfg.jwt(token).value.jti)
    ensures var after := After(cfg, db, events);
      var claims := if Genuine(cfg, token, later) then cfg.jwt(token) else None;
      && Verified(cfg, after.revoked, token, later).1 == claims
      && Tells(cfg, after, token, claims, shown, hint, client, d, later)
  {
    hide Verified, After, Unrevoked, InWindow, Tells;
    RunBarsNothing(cfg, db, events, cfg.jwt(token).value.jti);
    VerifiedExactly(cfg, After(cfg, db, events).revoked, token, later);
    EndpointsTell(cfg, After(cfg, db, events), token, shown, hint, client, d, later);
  }

  /** A token that its owner revoked while it was good is shown to nobody and answered for by no endpoint, whatever
      calls and sweeps come in between. */
  lemma RevokedTokenTellsNothing(cfg: Settings, db: Db, token: string, owner: Client, d: Draws, now: int,
                                 events: seq<Event>, shown: string, hint: string, client: Client, e: Draws, later: int)
    requires UniqueIds(cfg) && Verified(cfg, db.revoked, token, now).1.Some?
    requires cfg.jwt(token).value.owner == owner.id && cfg.jwt(token).value.jti != "" && cfg.jwt(token).value.exp.Some?
    requires Ordered(now, events) && now <= later && forall e :: e in events ==> e.at <= later
    ensures var after := After(cfg, Handled(cfg, map[], db, Revoke(owner, token), d, now).0, events);
      Tells(cfg, after, token, None, shown, hint, client, e, later)
  {
    hide Verified, After, UniqueIds, Ordered, InWindow, Tells, Barred;
    RevocationIsPermanent(cfg, db, token, owner.id, now, events, later);
    var after := After(cfg, Revoked(cfg, db, token, owner.id, now), events);
    VerifiedExactly(cfg, after.revoked, token, later);
    EndpointsTell(cfg, after, token, shown, hint, client, e, later);
  }
}
