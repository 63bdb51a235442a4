/** Whole runs of a broker object: what is proved about runs of the handler functions holds of the running broker. */
module BrokerRuns {
  import opened Entities
  import opened Handlers
  import opened Brokers
  import opened Runs
  import opened SweepTransparency
  import opened Revocation
  import opened Scopes
  import opened TokenLife
  import opened TokenRevocation

  /** Serves every call and makes every sweep, one after the other. */
  method ServeAll(b: Broker, events: seq<Event>) returns (responses: seq<Response>)
    modifies b.store
    ensures responses == Responses(b.cfg, old(b.store.Value()), events)
    ensures b.store.Value() == After(b.cfg, old(b.store.Value()), events)
  {
    hide Handled, SweptDb;
    responses := [];
    for i := 0 to |events|
      invariant Responses(b.cfg, old(b.store.Value()), events) ==
          responses + Responses(b.cfg, b.store.Value(), events[i..])
      invariant After(b.cfg, old(b.store.Value()), events) == After(b.cfg, b.store.Value(), events[i..])
    {
      assert events[i..][1..] == events[i + 1..];
      match events[i]
      case Serve(at, clients, call, draws) =>
        var response := b.Serve(clients, call, draws, at);
        responses := responses + [response];
      case Sweep(_, reading) => var _ := b.store.SweepExpired(reading);
    }
  }

  /** Two brokers with the same configuration and equal stores, one swept and one never swept, answer alike. */
  method ServeBoth(swept: Broker, unswept: Broker, now: int, events: seq<Event>)
    returns (answers: seq<Response>, others: seq<Response>)
    requires swept.store != unswept.store && swept.cfg == unswept.cfg
    requires swept.store.Value() == unswept.store.Value() && Ordered(now, events)
    modifies swept.store, unswept.store
    ensures answers == others
  {
    hide Responses, Ordered, After;
    ghost var db := swept.store.Value();
    answers := ServeAll(swept, events);
    others := ServeAll(unswept, WithoutSweeps(events));
    SweepsAreUnobservable(swept.cfg, db, now, events);
  }

  /** A broker that was asked by its owner to revoke a good token never verifies it again, whatever it serves and
      however often it sweeps in between. */
  method RevokeAndServe(b: Broker, token: string, clientID: string, now: int, events: seq<Event>, later: int)
    returns (responses: seq<Response>, claims: Option<Claims>)
    requires UniqueIds(b.cfg) && Verified(b.cfg, b.store.revoked, token, now).1.Some?
    requires var c := b.cfg.jwt(token).value; c.owner == clientID && c.jti != "" && c.exp.Some?
    requires Ordered(now, events) && now <= later && forall e :: e in events ==> e.at <= later
    modifies b.store
    ensures claims.None?
  {
    hide Ordered, After, UniqueIds, Responses;
    ghost var db := b.store.Value();
    b.HandleRevoke(token, clientID, now);
    responses := ServeAll(b, events);
    RevocationIsPermanent(b.cfg, db, token, clientID, now, events, later);
    claims := b.VerifyJWT(token, later);
  }

  /** A broker that was asked by its own client to revoke a refresh token grants nothing for it any more, whoever
      presents it, whatever it serves and however often it sweeps in between. */
  method RevokeTokenAndServe(b: Broker, clients: map<string, Client>, owner: Client, secret: string, d: Draws, now: int,
                             events: seq<Event>, client: Client, scope: string, e: Draws, later: int)
    returns (responses: seq<Response>, answer: Response)
    requires secret != "" && forall e :: e in events ==> Undrawn(e, secret)
    requires Digest(secret) in b.store.refresh ==> b.store.refresh[Digest(secret)].clientID == owner.id
    modifies b.store
    ensures answer == Failed(InvalidGrant)
  {
    hide After, Responses, Handled, TrimSpace;
    ghost var db := b.store.Value();
    var _ := b.Serve(clients, Revoke(owner, secret), d, now);
    responses := ServeAll(b, events);
    answer := b.Serve(clients, Refresh(client, secret, scope), e, later);
    RevokedIsRefused(b.cfg, clients, db, owner, secret, d, now, events, client, scope, e, later);
  }
}
