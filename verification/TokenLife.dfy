/** How long a refresh token lasts: whatever calls and sweeps come in between, it can be exchanged exactly up to its
    expiry, unless its own client has exchanged or revoked it or has replayed a token of its family. */
module TokenLife {
  import opened Entities
  import opened Transactions
  import opened Scopes
  import opened Sessions
  import opened Handlers
  import opened Runs
  import Flow = AuthorizationFlow

  // The token is stored under its key until it expires
  predicate Kept(db: Db, key: Digest, token: RefreshToken, now: int) {
    && (key in db.refresh ==> db.refresh[key] == token)
    && (now <= token.expiresAt ==> key in db.refresh)
    && key !in db.consumed
  }

  // A tombstone of the token's family
  predicate Replays(db: Db, presented: Digest, clientID: string, token: RefreshToken) {
    && presented in db.consumed && db.consumed[presented].clientID == clientID
    && db.consumed[presented].familyID == token.familyID
  }

  // Anyone else may present or revoke the token, and its own client may ask for a wider scope
  predicate Spares(db: Db, call: Call, key: Digest, token: RefreshToken) {
    match call
    case Refresh(client, presented, scope) =>
      && (Digest(presented) == key ==> client.id != token.clientID || !(Tokens(scope) <= Tokens(token.scope)))
      && !Replays(db, Digest(presented), client.id, token)
    case Revoke(client, presented) => Digest(presented) == key ==> client.id != token.clientID
    case _ => true
  }

  // Every call spares the token, and no draw repeats its secret
  predicate Spared(cfg: Settings, db: Db, events: seq<Event>, secret: string, token: RefreshToken)
    decreases |events|
  {
    events == [] ||
      ((events[0].Serve? ==> events[0].draws.secret != secret && Spares(db, events[0].call, Digest(secret), token)) &&
       Spared(cfg, Next(cfg, db, events[0]), events[1..], secret, token))
  }

  // ---- What one event does ----

  // A replay of another family's token
  lemma ReplayKeeps(db: Db, key: Digest, token: RefreshToken, now: int, family: string)
    requires Kept(db, key, token, now) && family != token.familyID
    ensures Kept(db.(refresh := WithoutFamily(db.refresh, family)), key, token, now)
  {
  }

  // The swap of another token
  lemma RotationKeeps(db: Db, key: Digest, token: RefreshToken, now: int, presented: Digest, clientID: string,
                      scope: string, d: Draws, ttl: int)
    requires Kept(db, key, token, now) && presented != key && Digest(d.secret) != key && presented in db.refresh
    ensures var r := NewRotation(db.refresh[presented], clientID, scope, d.secret, d.family, now, ttl);
      Kept(WithRotation(db, presented, r), key, token, now)
  {
  }

  lemma RefreshKeeps(cfg: Settings, db: Db, client: Client, presented: string, scope: string, d: Draws, now: int,
                     secret: string, token: RefreshToken)
    requires Kept(db, Digest(secret), token, now) && d.secret != secret
    requires Spares(db, Refresh(client, presented, scope), Digest(secret), token)
    ensures Kept(Refreshed(cfg, db, client, presented, scope, d, now).0, Digest(secret), token, now)
  {
    hide Tokens, TrimSpace, WithoutFamily, WithRotation, NewRotation;
    TrimKeepsTokens(scope);
    var key, wanted := Digest(presented), TrimSpace(scope);
    if key in db.consumed && !(now > db.consumed[key].expiresAt) {
      if db.consumed[key].clientID == client.id {
        ReplayKeeps(db, Digest(secret), token, now, db.consumed[key].familyID);
      }
    } else if key in db.refresh && key != Digest(secret) {
      var granted := if wanted == "" then db.refresh[key].scope else wanted;
      RotationKeeps(db, Digest(secret), token, now, key, client.id, granted, d, cfg.refreshTTL);
    }
  }

  // The calls that read or write refresh tokens
  predicate ToTokens(call: Call) {
    call.Redeem? || call.Refresh? || call.Revoke?
  }

  lemma OthersKeepTokens(cfg: Settings, clients: map<string, Client>, db: Db, call: Call, d: Draws, now: int)
    requires !ToTokens(call)
    ensures Handled(cfg, clients, db, call, d, now).0.refresh == db.refresh
    ensures Handled(cfg, clients, db, call, d, now).0.consumed == db.consumed
  {
    hide Authorized, LoggedIn, ConsentShown, Decided, ReAuthed, LoggedOut, Introspected, InfoShown, Touched, Validated,
      LoginShown;
  }

  lemma ServeKeeps(cfg: Settings, clients: map<string, Client>, db: Db, call: Call, d: Draws, now: int, secret: string,
                   token: RefreshToken)
    requires Kept(db, Digest(secret), token, now) && d.secret != secret && Spares(db, call, Digest(secret), token)
    ensures Kept(Handled(cfg, clients, db, call, d, now).0, Digest(secret), token, now)
  {
    hide Refreshed, JwtRevoked, Tokens, TrimSpace, Flow.CodeRedeemable;
    match call
    case Refresh(client, presented, scope) => RefreshKeeps(cfg, db, client, presented, scope, d, now, secret, token);
    case Redeem(_, _, _, _) =>
    case Revoke(_, _) =>
    case _ =>
      hide Handled;
      OthersKeepTokens(cfg, clients, db, call, d, now);
  }

  lemma SweepKeeps(db: Db, reading: int, key: Digest, token: RefreshToken, now: int)
    requires Kept(db, key, token, now) && reading <= now
    ensures Kept(SweptDb(db, reading), key, token, now)
  {
  }

  lemma {:induction false} RunKeeps(cfg: Settings, db: Db, now: int, events: seq<Event>, later: int, secret: string,
                                    token: RefreshToken)
    requires Kept(db, Digest(secret), token, now) && Between(now, events, later)
    requires Spared(cfg, db, events, secret, token)
    ensures Kept(After(cfg, db, events), Digest(secret), token, later)
    decreases |events|
  {
    hide Handled, SweptDb, Spares;
    if events != [] {
      var e := events[0];
      assert Kept(db, Digest(secret), token, e.at);
      if e.Serve? {
        ServeKeeps(cfg, e.clients, db, e.call, e.draws, e.at, secret, token);
      } else {
        SweepKeeps(db, e.reading, Digest(secret), token, e.at);
      }
      RunKeeps(cfg, Next(cfg, db, e), e.at, events[1..], later, secret, token);
    }
  }

  // ---- Exchanging the token ----

  // The words of the scope a refresh is granted
  function GrantedTokens(token: RefreshToken, scope: string): set<string> {
    if Tokens(scope) == {} then Tokens(token.scope) else Tokens(scope)
  }

  // What a response says of the user, and the refresh token that comes with it
  predicate Speaks(r: Response, token: RefreshToken, scope: string, secret: string) {
    && r.Granted? && r.userID == token.userID && r.clientID == token.clientID && r.authTime == token.authTime
    && r.amr == token.amr && Tokens(r.scope) == GrantedTokens(token, scope) && r.refreshToken == Some(secret)
  }

  lemma Exchange(cfg: Settings, db: Db, client: Client, secret: string, scope: string, d: Draws, now: int,
                 token: RefreshToken)
    requires Kept(db, Digest(secret), token, now)
    ensures var r := Refreshed(cfg, db, client, secret, scope, d, now).1;
      && (r.Granted? <==>
            now <= token.expiresAt && client.id == token.clientID && Tokens(scope) <= Tokens(token.scope))
      && (r.Granted? ==> Speaks(r, token, scope, d.secret))
  {
    hide Tokens, TrimSpace, NewRotation, WithRotation;
    TrimKeepsTokens(scope);
  }

  /** A refresh token that is in the store can be exchanged by its own client exactly up to its expiry and exactly for
      scopes within its own, whatever calls and sweeps have spared it since; the response names its user, the
      moment and the means of the login, and the new secret. */
  lemma TokenLasts(cfg: Settings, clients: map<string, Client>, db: Db, secret: string, token: RefreshToken, now: int,
                   events: seq<Event>, client: Client, scope: string, d: Draws, later: int)
    requires Kept(db, Digest(secret), token, now) && Between(now, events, later)
    requires Spared(cfg, db, events, secret, token)
    ensures var r := Handled(cfg, clients, After(cfg, db, events), Refresh(client, secret, scope), d, later).1;
      && (r.Granted? <==>
            later <= token.expiresAt && client.id == token.clientID && Tokens(scope) <= Tokens(token.scope))
      && (r.Granted? ==> Speaks(r, token, scope, d.secret))
  {
    hide Kept, After, Spared, Between, Refreshed, Speaks;
    RunKeeps(cfg, db, now, events, later, secret, token);
    Exchange(cfg, After(cfg, db, events), client, secret, scope, d, later, token);
  }

  // ---- Tokens handed out by a refresh ----

  // The token that a refresh puts in place of the old one
  predicate Succeeds(next: RefreshToken, prior: RefreshToken, scope: string, expiresAt: int) {
    && next.userID == prior.userID && next.clientID == prior.clientID && next.authTime == prior.authTime
    && next.amr == prior.amr && next.expiresAt == expiresAt && Tokens(next.scope) == GrantedTokens(prior, scope)
  }

  lemma RefreshHandsOut(cfg: Settings, db: Db, client: Client, presented: string, scope: string, d: Draws, now: int)
    requires Refreshed(cfg, db, client, presented, scope, d, now).1.Granted?
    requires d.secret != presented && Digest(d.secret) !in db.consumed
    ensures var r := Refreshed(cfg, db, client, presented, scope, d, now);
      && Digest(presented) in db.refresh && Digest(d.secret) in r.0.refresh
      && Speaks(r.1, db.refresh[Digest(presented)], scope, d.secret)
      && Kept(r.0, Digest(d.secret), r.0.refresh[Digest(d.secret)], now)
      && Succeeds(r.0.refresh[Digest(d.secret)], db.refresh[Digest(presented)], scope, now + cfg.refreshTTL)
      && Tokens(r.0.refresh[Digest(d.secret)].scope) == Tokens(r.1.scope)
  {
    hide Tokens, TrimSpace;
    TrimKeepsTokens(scope);
  }

  /** The secret in a refresh response is good for one refresh lifetime, for its client and within the granted scope,
      whatever calls and sweeps have spared it since; every response on the way names the same login. */
  lemma RefreshedTokenLasts(cfg: Settings, clients: map<string, Client>, db: Db, client: Client, presented: string,
                            scope: string, d: Draws, now: int, events: seq<Event>, other: Client, wanted: string,
                            e: Draws, later: int)
    requires Handled(cfg, clients, db, Refresh(client, presented, scope), d, now).1.Granted?
    requires d.secret != presented && Digest(d.secret) !in db.consumed && Between(now, events, later)
    requires var r := Handled(cfg, clients, db, Refresh(client, presented, scope), d, now).0;
      Digest(d.secret) in r.refresh ==> Spared(cfg, r, events, d.secret, r.refresh[Digest(d.secret)])
    ensures Digest(presented) in db.refresh
    ensures var r := Handled(cfg, clients, db, Refresh(client, presented, scope), d, now);
      && Speaks(r.1, db.refresh[Digest(presented)], scope, d.secret)
      && var again := Refresh(other, r.1.refreshToken.value, wanted);
         var s := Handled(cfg, clients, After(cfg, r.0, events), again, e, later).1;
         && (s.Granted? <==>
               later <= now + cfg.refreshTTL && other.id == client.id && Tokens(wanted) <= Tokens(r.1.scope))
         && (s.Granted? ==> s.userID == r.1.userID && s.authTime == r.1.authTime && s.amr == r.1.amr)
  {
    hide Refreshed, After, Spared, Between, Kept, Tokens;
    RefreshHandsOut(cfg, db, client, presented, scope, d, now);
    RefreshIsOwn(cfg, db, client, presented, scope, d, now);
    var r := Refreshed(cfg, db, client, presented, scope, d, now).0;
    TokenLasts(cfg, clients, r, d.secret, r.refresh[Digest(d.secret)], now, events, other, wanted, e, later);
  }

  lemma RefreshIsOwn(cfg: Settings, db: Db, client: Client, presented: string, scope: string, d: Draws, now: int)
    requires Refreshed(cfg, db, client, presented, scope, d, now).1.Granted?
    ensures Digest(presented) in db.refresh && db.refresh[Digest(presented)].clientID == client.id
    ensures Refreshed(cfg, db, client, presented, scope, d, now).1.clientID == client.id
  {
    hide Tokens, TrimSpace, NewRotation, WithRotation;
  }

  // ---- Tokens presented again ----

  // The token is gone, and its tombstone stays until the token would have expired
  predicate Spent(db: Db, key: Digest, tombstone: Tombstone, now: int) {
    && key !in db.refresh && (key in db.consumed ==> db.consumed[key] == tombstone)
    && (now <= tombstone.expiresAt ==> key in db.consumed)
  }

  // No draw repeats the secret
  predicate Undrawn(e: Event, secret: string) {
    e.Serve? ==> e.draws.secret != secret
  }

  lemma RotationKeepsSpent(db: Db, key: Digest, tombstone: Tombstone, now: int, presented: Digest, clientID: string,
                           scope: string, d: Draws, ttl: int)
    requires Spent(db, key, tombstone, now) && Digest(d.secret) != key && presented in db.refresh
    ensures var r := NewRotation(db.refresh[presented], clientID, scope, d.secret, d.family, now, ttl);
      Spent(WithRotation(db, presented, r), key, tombstone, now)
  {
  }

  lemma RefreshKeepsSpent(cfg: Settings, db: Db, client: Client, presented: string, scope: string, d: Draws, now: int,
                          secret: string, tombstone: Tombstone)
    requires Spent(db, Digest(secret), tombstone, now) && d.secret != secret
    ensures Spent(Refreshed(cfg, db, client, presented, scope, d, now).0, Digest(secret), tombstone, now)
  {
    hide Tokens, TrimSpace, WithRotation, NewRotation;
    var key, wanted := Digest(presented), TrimSpace(scope);
    if key in db.refresh {
      var granted := if wanted == "" then db.refresh[key].scope else wanted;
      RotationKeepsSpent(db, Digest(secret), tombstone, now, key, client.id, granted, d, cfg.refreshTTL);
    }
  }

  lemma ServeKeepsSpent(cfg: Settings, clients: map<string, Client>, db: Db, call: Call, d: Draws, now: int,
                        secret: string, tombstone: Tombstone)
    requires Spent(db, Digest(secret), tombstone, now) && d.secret != secret
    ensures Spent(Handled(cfg, clients, db, call, d, now).0, Digest(secret), tombstone, now)
  {
    hide Refreshed, JwtRevoked, Tokens, TrimSpace, Flow.CodeRedeemable;
    match call
    case Refresh(client, presented, scope) =>
      RefreshKeepsSpent(cfg, db, client, presented, scope, d, now, secret, tombstone);
    case Redeem(_, _, _, _) =>
    case Revoke(_, _) =>
    case _ =>
      hide Handled;
      OthersKeepTokens(cfg, clients, db, call, d, now);
  }

  lemma {:induction false} RunKeepsSpent(cfg: Settings, db: Db, now: int, events: seq<Event>, later: int,
                                         secret: string, tombstone: Tombstone)
    requires Spent(db, Digest(secret), tombstone, now) && Between(now, events, later)
    requires forall e :: e in events ==> Undrawn(e, secret)
    ensures Spent(After(cfg, db, events), Digest(secret), tombstone, later)
    decreases |events|
  {
    hide Handled, SweptDb;
    if events != [] {
      var e := events[0];
      assert Undrawn(e, secret);
      if e.Serve? {
        ServeKeepsSpent(cfg, e.clients, db, e.call, e.draws, e.at, secret, tombstone);
      } else {
        SweepKeepsSpent(db, e.reading, Digest(secret), tombstone, e.at);
      }
      RunKeepsSpent(cfg, Next(cfg, db, e), e.at, events[1..], later, secret, tombstone);
    }
  }

  lemma SweepKeepsSpent(db: Db, reading: int, key: Digest, tombstone: Tombstone, now: int)
    requires Spent(db, key, tombstone, now) && reading <= now
    ensures Spent(SweptDb(db, reading), key, tombstone, now)
  {
  }

  // The tombstone that a refresh leaves
  lemma RefreshSpends(cfg: Settings, db: Db, client: Client, presented: string, scope: string, d: Draws, now: int)
    requires Refreshed(cfg, db, client, presented, scope, d, now).1.Granted? && d.secret != presented
    ensures Digest(presented) in db.refresh
    ensures var prior, r := db.refresh[Digest(presented)], Refreshed(cfg, db, client, presented, scope, d, now).0;
      && Digest(d.secret) in r.refresh
      && var family := r.refresh[Digest(d.secret)].familyID;
         && Spent(r, Digest(presented), Tombstone(prior.userID, client.id, family, prior.expiresAt), now)
         && family == if prior.familyID == "" then d.family else prior.familyID
  {
    hide Tokens, TrimSpace;
  }

  /** A refresh token that was exchanged is never honoured again, whatever calls and sweeps come in between; if its own
      client presents it before it would have expired, no refresh token of its family is left. */
  lemma ReplayEndsFamily(cfg: Settings, clients: map<string, Client>, db: Db, client: Client, presented: string,
                         scope: string, d: Draws, now: int, events: seq<Event>, other: Client, wanted: string, e: Draws,
                         later: int)
    requires Handled(cfg, clients, db, Refresh(client, presented, scope), d, now).1.Granted?
    requires d.secret != presented && d.family != ""
    requires Between(now, events, later) && forall e :: e in events ==> Undrawn(e, presented)
    ensures Digest(presented) in db.refresh
    ensures var r := Handled(cfg, clients, db, Refresh(client, presented, scope), d, now).0;
      && Digest(d.secret) in r.refresh
      && var s := Handled(cfg, clients, After(cfg, r, events), Refresh(other, presented, wanted), e, later);
         && s.1 == Failed(InvalidGrant)
         && (later <= db.refresh[Digest(presented)].expiresAt && other.id == client.id ==>
               forall k :: k in s.0.refresh ==> s.0.refresh[k].familyID != r.refresh[Digest(d.secret)].familyID)
  {
    hide Refreshed, After, Between;
    RefreshSpends(cfg, db, client, presented, scope, d, now);
    var prior, r := db.refresh[Digest(presented)], Refreshed(cfg, db, client, presented, scope, d, now).0;
    var tombstone := Tombstone(prior.userID, client.id, r.refresh[Digest(d.secret)].familyID, prior.expiresAt);
    RunKeepsSpent(cfg, r, now, events, later, presented, tombstone);
    SpentIsRefused(cfg, After(cfg, r, events), other, presented, wanted, e, later, tombstone);
  }

  lemma SpentIsRefused(cfg: Settings, db: Db, client: Client, secret: string, scope: string, d: Draws, now: int,
                       tombstone: Tombstone)
    requires Spent(db, Digest(secret), tombstone, now)
    ensures var r := Refreshed(cfg, db, client, secret, scope, d, now);
      && r.1 == Failed(InvalidGrant)
      && (now <= tombstone.expiresAt && client.id == tombstone.clientID && tombstone.familyID != "" ==>
            forall k :: k in r.0.refresh ==> r.0.refresh[k].familyID != tombstone.familyID)
  {
    hide Tokens, TrimSpace;
  }
}
