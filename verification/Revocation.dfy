/** Revoking an access token (revokeJWT, verifyTokenNotRevoked): the tombstone may be swept or lazily deleted,
    and the token still never verifies again. */
module Revocation {
  import opened Entities
  import opened Sessions
  import opened Handlers
  import opened Runs
  import Scopes

  // The last moment jwtExpired accepts the token, and the expiry of its tombstone
  function Deadline(claims: Claims): int
    requires claims.exp.Some?
  {
    claims.exp.value * SECOND + SKEW
  }

  // Token ids are random: two tokens with the same id are the same token
  ghost predicate UniqueIds(cfg: Settings) {
    forall t, u :: cfg.jwt(t).Some? && cfg.jwt(u).Some? && cfg.jwt(t).value.jti == cfg.jwt(u).value.jti != "" ==>
      cfg.jwt(t).value.exp == cfg.jwt(u).value.exp
  }

  // The tombstone is there, or the token is expired anyway
  predicate Dead(revoked: map<string, int>, claims: Claims, now: int)
    requires claims.exp.Some?
  {
    now > Deadline(claims) || (claims.jti in revoked && revoked[claims.jti] == Deadline(claims))
  }

  lemma DeadIsRejected(cfg: Settings, revoked: map<string, int>, token: string, now: int)
    requires cfg.jwt(token).Some? && cfg.jwt(token).value.jti != "" && cfg.jwt(token).value.exp.Some?
    requires Dead(revoked, cfg.jwt(token).value, now)
    ensures Verified(cfg, revoked, token, now).1.None?
  {
  }

  // A tombstone is dropped only when the token has expired
  lemma VerifyingKeepsDead(cfg: Settings, revoked: map<string, int>, token: string, claims: Claims, now: int)
    requires claims.exp.Some? && Dead(revoked, claims, now)
    ensures Dead(Verified(cfg, revoked, token, now).0, claims, now)
  {
  }

  lemma RevokingKeepsDead(cfg: Settings, revoked: map<string, int>, token: string, clientID: string, dead: string,
                          now: int)
    requires UniqueIds(cfg) && cfg.jwt(dead).Some? && cfg.jwt(dead).value.jti != "" && cfg.jwt(dead).value.exp.Some?
    requires Dead(revoked, cfg.jwt(dead).value, now)
    ensures Dead(JwtRevoked(cfg, revoked, token, clientID, now), cfg.jwt(dead).value, now)
  {
    VerifyingKeepsDead(cfg, revoked, token, cfg.jwt(dead).value, now);
  }

  lemma IntrospectedRevoked(cfg: Settings, db: Db, token: string, hint: string, clientID: string, now: int)
    ensures var after := Introspected(cfg, db, token, hint, clientID, now).0.revoked;
      after == db.revoked || after == Verified(cfg, db.revoked, Scopes.TrimSpace(token), now).0
  {
    hide Verified, Scopes.TrimSpace, RefreshShown;
  }

  lemma HandledKeepsDead(cfg: Settings, clients: map<string, Client>, db: Db, call: Call, d: Draws, dead: string,
                         now: int)
    requires UniqueIds(cfg) && cfg.jwt(dead).Some? && cfg.jwt(dead).value.jti != "" && cfg.jwt(dead).value.exp.Some?
    requires Dead(db.revoked, cfg.jwt(dead).value, now)
    ensures Dead(Handled(cfg, clients, db, call, d, now).0.revoked, cfg.jwt(dead).value, now)
  {
    hide Verified, JwtRevoked, Dead, UniqueIds, Introspected;
    match call
    case Introspect(client, token, hint) =>
      IntrospectedRevoked(cfg, db, token, hint, client.id, now);
      VerifyingKeepsDead(cfg, db.revoked, Scopes.TrimSpace(token), cfg.jwt(dead).value, now);
    case UserInfo(token) => VerifyingKeepsDead(cfg, db.revoked, token, cfg.jwt(dead).value, now);
    case Revoke(client, token) => RevokingKeepsDead(cfg, db.revoked, token, client.id, dead, now);
    case _ =>
      hide Handled;
      OthersKeepTombstones(cfg, clients, db, call, d, now);
  }

  lemma OthersKeepTombstones(cfg: Settings, clients: map<string, Client>, db: Db, call: Call, d: Draws, now: int)
    requires !call.Introspect? && !call.UserInfo? && !call.Revoke?
    ensures Handled(cfg, clients, db, call, d, now).0.revoked == db.revoked
  {
    hide Authorized, LoggedIn, Decided, ConsentShown, ReAuthed, LoggedOut, Redeemed, Refreshed, LoginShown, Touched,
      Validated;
  }

  lemma {:induction false} RunKeepsDead(cfg: Settings, db: Db, now: int, events: seq<Event>, dead: string, later: int)
    requires UniqueIds(cfg) && cfg.jwt(dead).Some? && cfg.jwt(dead).value.jti != "" && cfg.jwt(dead).value.exp.Some?
    requires Ordered(now, events) && Dead(db.revoked, cfg.jwt(dead).value, now)
    requires now <= later && forall e :: e in events ==> e.at <= later
    ensures Dead(After(cfg, db, events).revoked, cfg.jwt(dead).value, later)
    decreases |events|
  {
    hide Handled, UniqueIds;
    if events != [] {
      var e := events[0];
      assert e in events;
      if e.Serve? {
        HandledKeepsDead(cfg, e.clients, db, e.call, e.draws, dead, e.at);
        RunKeepsDead(cfg, Handled(cfg, e.clients, db, e.call, e.draws, e.at).0, e.at, events[1..], dead, later);
      } else {
        RunKeepsDead(cfg, SweptDb(db, e.reading), e.at, events[1..], dead, later);
      }
    }
  }

  /** Once the owner has revoked a token that was good at the time, no later verification accepts it, whatever
      calls and sweeps come in between. */
  lemma RevocationIsPermanent(cfg: Settings, db: Db, token: string, clientID: string, now: int, events: seq<Event>,
                              later: int)
    requires UniqueIds(cfg)
    requires Verified(cfg, db.revoked, token, now).1.Some?
    requires cfg.jwt(token).value.owner == clientID && cfg.jwt(token).value.jti != "" && cfg.jwt(token).value.exp.Some?
    requires Ordered(now, events) && now <= later && forall e :: e in events ==> e.at <= later
    ensures Verified(cfg, After(cfg, Revoked(cfg, db, token, clientID, now), events).revoked, token, later).1.None?
  {
    hide UniqueIds, Ordered, After;
    var revoked := Revoked(cfg, db, token, clientID, now);
    assert Dead(revoked.revoked, cfg.jwt(token).value, now);
    RunKeepsDead(cfg, revoked, now, events, token, later);
    DeadIsRejected(cfg, After(cfg, revoked, events).revoked, token, later);
  }

  // ---- The two clock readings ----

  // A tombstone of the token, if there is one, expires at the deadline
  predicate Exact(revoked: map<string, int>, claims: Claims)
    requires claims.exp.Some?
  {
    claims.jti in revoked ==> revoked[claims.jti] == Deadline(claims)
  }

  lemma RevokingKeepsExact(cfg: Settings, revoked: map<string, int>, token: string, clientID: string, dead: string,
                           now: int)
    requires UniqueIds(cfg) && cfg.jwt(dead).Some? && cfg.jwt(dead).value.jti != "" && cfg.jwt(dead).value.exp.Some?
    requires Exact(revoked, cfg.jwt(dead).value)
    ensures Exact(Verified(cfg, revoked, token, now).0, cfg.jwt(dead).value)
    ensures Exact(JwtRevoked(cfg, revoked, token, clientID, now), cfg.jwt(dead).value)
  {
  }

  lemma HandledKeepsExact(cfg: Settings, clients: map<string, Client>, db: Db, call: Call, d: Draws, dead: string,
                          now: int)
    requires UniqueIds(cfg) && cfg.jwt(dead).Some? && cfg.jwt(dead).value.jti != "" && cfg.jwt(dead).value.exp.Some?
    requires Exact(db.revoked, cfg.jwt(dead).value)
    ensures Exact(Handled(cfg, clients, db, call, d, now).0.revoked, cfg.jwt(dead).value)
  {
    hide Verified, JwtRevoked, Exact, UniqueIds, Introspected;
    match call
    case Introspect(client, token, hint) =>
      IntrospectedRevoked(cfg, db, token, hint, client.id, now);
      RevokingKeepsExact(cfg, db.revoked, Scopes.TrimSpace(token), client.id, dead, now);
    case UserInfo(token) => RevokingKeepsExact(cfg, db.revoked, token, "", dead, now);
    case Revoke(client, token) => RevokingKeepsExact(cfg, db.revoked, token, client.id, dead, now);
    case _ =>
      hide Handled;
      OthersKeepTombstones(cfg, clients, db, call, d, now);
  }

  lemma {:induction false} RunKeepsExact(cfg: Settings, db: Db, events: seq<Event>, dead: string)
    requires UniqueIds(cfg) && cfg.jwt(dead).Some? && cfg.jwt(dead).value.jti != "" && cfg.jwt(dead).value.exp.Some?
    requires Exact(db.revoked, cfg.jwt(dead).value)
    ensures Exact(After(cfg, db, events).revoked, cfg.jwt(dead).value)
    decreases |events|
  {
    hide Handled, UniqueIds;
    if events != [] {
      var e := events[0];
      if e.Serve? {
        HandledKeepsExact(cfg, e.clients, db, e.call, e.draws, dead, e.at);
        RunKeepsExact(cfg, Handled(cfg, e.clients, db, e.call, e.draws, e.at).0, events[1..], dead);
      } else {
        RunKeepsExact(cfg, SweptDb(db, e.reading), events[1..], dead);
      }
    }
  }

  // verifyJWT as it is written: one clock reading for the expiry check, a later one for the tombstone
  function VerifiedTwice(cfg: Settings, revoked: map<string, int>, token: string, first: int,
                         second: int): (r: Option<Claims>)
    ensures first == second ==> r == Verified(cfg, revoked, token, first).1
  {
    var claims := cfg.jwt(token);
    if claims.None? || !claims.value.issuerOk || JwtExpired(claims.value, first) ||
      JwtNotActive(claims.value, first) then None
    else if NotRevoked(revoked, claims.value.jti, second).1 then claims else None
  }

  /** After the owner has revoked a token that was good at the time, and whatever calls and sweeps have run up to the
      tombstone lookup, a verification with two clock readings accepts the token exactly when its deadline falls between
      them. The first reading may lie before or after the revocation; the tombstone may be there, swept or lazily
      deleted. */
  lemma RevocationRaceExactly(cfg: Settings, db: Db, token: string, clientID: string, now: int, events: seq<Event>,
                              first: int, second: int)
    requires UniqueIds(cfg)
    requires Verified(cfg, db.revoked, token, now).1.Some?
    requires cfg.jwt(token).value.owner == clientID && cfg.jwt(token).value.jti != "" && cfg.jwt(token).value.exp.Some?
    requires Ordered(now, events) && now <= second && forall e :: e in events ==> e.at <= second
    requires first <= second
    ensures var claims, later := cfg.jwt(token).value, After(cfg, Revoked(cfg, db, token, clientID, now), events);
      VerifiedTwice(cfg, later.revoked, token, first, second).Some? <==>
        !JwtNotActive(claims, first) && first <= Deadline(claims) < second
    ensures now <= first ==> !JwtNotActive(cfg.jwt(token).value, first)
  {
    hide UniqueIds, Ordered, After;
    var revoked := Revoked(cfg, db, token, clientID, now);
    assert Dead(revoked.revoked, cfg.jwt(token).value, now) && Exact(revoked.revoked, cfg.jwt(token).value);
    RunKeepsDead(cfg, revoked, now, events, token, second);
    RunKeepsExact(cfg, revoked, events, token);
  }
}
