/** Introspection and redemption agree on refresh tokens, in every state that concurrent requests can reach. */
module Introspection {
  import opened Entities
  import opened Transactions
  import opened Scopes
  import opened Handlers
  import R = RefreshFamilies
  import T = RefreshTheorems
  import opened SoloRefresh

  // strings.Split on "."
  function Segments(token: string): nat {
    if token == "" then 1 else Segments(token[1..]) + if token[0] == '.' then 1 else 0
  }

  lemma {:induction false} OneSegment(token: string)
    requires '.' !in token
    ensures Segments(token) == 1
  {
    if token != "" {
      assert token[0] in token;
      assert forall c :: c in token[1..] ==> c in token;
      OneSegment(token[1..]);
    }
  }

  // verifyJWT refuses anything that is not three segments
  ghost predicate ThreeSegments(cfg: Settings) {
    forall token :: cfg.jwt(token).Some? ==> Segments(token) == 3
  }

  lemma IssuedTokens(ttl: int, s: R.State)
    requires T.Reachable(ttl, s)
    ensures forall k :: k in s.active ==> Base64Url(k.secret) && k !in s.consumed
  {
    hide T.Reachable, R.Heirs, R.Generations, R.Roots, R.FlightInv, R.AllApart, Base64Url, R.Chains, R.Revocations;
    T.ReachableInv(ttl, s);
    forall k | k in s.active
      ensures Base64Url(k.secret) && k !in s.consumed
    {
      assert k in s.past.minted;
    }
  }

  // An issued refresh token is never a JWT
  lemma NotJwt(cfg: Settings, db: Db, token: string, clientID: string, now: int)
    requires ThreeSegments(cfg) && Base64Url(token)
    ensures JwtShown(cfg, db, token, clientID, now) == (db, Inactive)
  {
    assert Segments(token) == 1 by {
      assert '.' !in token;
      OneSegment(token);
    }
  }

  lemma JwtIsNotRefresh(cfg: Settings, db: Db, token: string, clientID: string, now: int)
    ensures var shown := JwtShown(cfg, db, token, clientID, now).1; shown.ActiveJWT? || shown == Inactive
    ensures JwtShown(cfg, db, token, clientID, now).0.refresh == db.refresh
  {
  }

  lemma TrimOfEmpty()
    ensures TrimSpace("") == ""
  {
  }

  lemma Nonempty(token: string)
    requires Base64Url(token)
    ensures token != ""
  {
  }

  lemma IssuedIsUnpadded(token: string)
    requires Base64Url(token)
    ensures TrimSpace(token) == token
  {
    assert token[0] in token && token[|token| - 1] in token;
  }

  /** A refresh token introspects as active for a client exactly when that client, presenting it trimmed and without a
      scope, would be given new tokens. Presented as it stands, it is honoured exactly when it is active and unpadded:
      introspection trims what it is given, and redemption does not. What is shown is what redemption would go by. */
  lemma IntrospectionAgreesWithRedemption(cfg: Settings, ttl: int, s: R.State, db: Db, client: Client, token: string,
                                          hint: string, d: Draws, now: int)
    requires T.Reachable(ttl, s) && Holds(db, s) && ThreeSegments(cfg)
    ensures Introspected(cfg, db, token, hint, client.id, now).1.ActiveRefresh? <==>
              Refreshed(cfg, db, client, TrimSpace(token), "", d, now).1.Granted?
    ensures Refreshed(cfg, db, client, token, "", d, now).1.Granted? <==>
              Introspected(cfg, db, token, hint, client.id, now).1.ActiveRefresh? && TrimSpace(token) == token
    ensures var shown := Introspected(cfg, db, token, hint, client.id, now).1;
      var r := Refreshed(cfg, db, client, TrimSpace(token), "", d, now).1;
      shown.ActiveRefresh? ==>
        && Digest(TrimSpace(token)) in db.refresh && shown.token == db.refresh[Digest(TrimSpace(token))]
        && shown.token.userID == r.userID && shown.token.clientID == r.clientID && shown.token.scope == r.scope
  {
    hide T.Reachable, TrimSpace, JwtShown, Base64Url, NewRotation, WithRotation, WithoutFamily, ThreeSegments, Tokens;
    IssuedTokens(ttl, s);
    var tok := TrimSpace(token);
    assert TrimSpace("") == "" by { TrimOfEmpty(); }
    JwtIsNotRefresh(cfg, db, tok, client.id, now);
    if Digest(tok) in db.refresh {
      NotJwt(cfg, db, tok, client.id, now);
      Nonempty(tok);
    }
    if Digest(token) in db.refresh {
      IssuedIsUnpadded(token);
    }
  }

  /** The token_type_hint changes neither the answer nor the store. */
  lemma HintNeverMatters(cfg: Settings, ttl: int, s: R.State, db: Db, clientID: string, token: string, hint: string,
                         now: int)
    requires T.Reachable(ttl, s) && Holds(db, s) && ThreeSegments(cfg)
    ensures Introspected(cfg, db, token, hint, clientID, now) == Introspected(cfg, db, token, "", clientID, now)
  {
    hide T.Reachable, TrimSpace, JwtShown, Base64Url, ThreeSegments;
    IssuedTokens(ttl, s);
    var tok := TrimSpace(token);
    JwtIsNotRefresh(cfg, db, tok, clientID, now);
    if Digest(tok) in db.refresh {
      NotJwt(cfg, db, tok, clientID, now);
    }
  }
}
