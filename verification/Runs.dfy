/** Runs of the handlers one after the other, with sweeps in between. */
module Runs {
  import opened Entities
  import opened Handlers

  // A call, with the clients registered at that moment, or a sweep whose clock reading may lag behind
  datatype Event =
    | Serve(at: int, clients: map<string, Client>, call: Call, draws: Draws)
    | Sweep(at: int, reading: int)

  predicate Ordered(now: int, events: seq<Event>)
    decreases |events|
  {
    events == [] ||
      (now <= events[0].at && (events[0].Sweep? ==> events[0].reading <= events[0].at) &&
       Ordered(events[0].at, events[1..]))
  }

  // What the outside sees
  function Responses(cfg: Settings, db: Db, events: seq<Event>): seq<Response>
    decreases |events|
  {
    if events == [] then []
    else match events[0]
      case Serve(at, clients, call, draws) =>
        var (next, response) := Handled(cfg, clients, db, call, draws, at);
        [response] + Responses(cfg, next, events[1..])
      case Sweep(_, reading) => Responses(cfg, SweptDb(db, reading), events[1..])
  }

  function Next(cfg: Settings, db: Db, e: Event): Db {
    match e
    case Serve(at, clients, call, draws) => Handled(cfg, clients, db, call, draws, at).0
    case Sweep(_, reading) => SweptDb(db, reading)
  }

  function After(cfg: Settings, db: Db, events: seq<Event>): Db
    decreases |events|
  {
    if events == [] then db else After(cfg, Next(cfg, db, events[0]), events[1..])
  }

  // The events happen in order, none before now and none after later
  predicate Between(now: int, events: seq<Event>, later: int)
    decreases |events|
  {
    if events == [] then now <= later
    else
      && now <= events[0].at && (events[0].Sweep? ==> events[0].reading <= events[0].at)
      && Between(events[0].at, events[1..], later)
  }
}
