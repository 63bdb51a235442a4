/** Keep-alive: with handlers run one at a time, exactly which gaps between visits keep a session
    usable up to its ceiling, whatever else happens to it and however often the sweeper runs. */
module KeepAlive {
  import opened Entities
  import opened Transactions
  import opened Sessions

  datatype Event =
    | Touch(at: int, csrf: string)      // maybeExtendSession
    | Check(at: int, csrf: string)      // validSession
    | Confirm(at: int, csrf: string)    // handleReAuth: validSession, then markSessionReAuth
    | Sweep(at: int, reading: int)      // the sweeper, whose clock reading may be older

  function Serve(life: Lifetime, sessions: Bucket, sid: string, e: Event): Bucket {
    match e
    case Touch(at, csrf) => Touched(life, sessions, sid, csrf, at).sessions
    case Check(at, csrf) => Validated(sessions, sid, csrf, at).sessions
    case Confirm(at, csrf) =>
      var a := Validated(sessions, sid, csrf, at);
      if a.found.Some? then ReAuthenticated(a.sessions, sid, at) else a.sessions
    case Sweep(_, reading) => Swept(sessions, (s: Session) => s.expiresAt, reading)
  }

  function After(life: Lifetime, sessions: Bucket, sid: string, events: seq<Event>): Bucket
    decreases |events|
  {
    if events == [] then sessions else After(life, Serve(life, sessions, sid, events[0]), sid, events[1..])
  }

  predicate Ordered(now: int, events: seq<Event>, end: int)
    decreases |events|
  {
    if events == [] then now <= end
    else now <= events[0].at && (events[0].Sweep? ==> events[0].reading <= events[0].at)
         && Ordered(events[0].at, events[1..], end)
  }

  // Each visit comes at most a gap after the one before, and the end at most a gap after the last
  predicate Visited(gap: int, last: int, events: seq<Event>, end: int)
    decreases |events|
  {
    if events == [] then end <= last + gap
    else if events[0].Touch? then events[0].at <= last + gap && Visited(gap, events[0].at, events[1..], end)
    else Visited(gap, last, events[1..], end)
  }

  predicate Honoured(sessions: Bucket, sid: string, now: int) {
    sid in sessions && !Lapsed(sessions[sid], now)
  }

  // The session outlasts every moment within the gap after the last visit, or lasts to its ceiling
  predicate Alive(life: Lifetime, sessions: Bucket, sid: string, ceiling: Option<int>, last: int) {
    && sid in sessions && sessions[sid].absoluteExpiresAt == ceiling
    && (sessions[sid].expiresAt >= last + life.ttl / 2 + 1 ||
        (ceiling.Some? && sessions[sid].expiresAt >= ceiling.value))
  }

  lemma ServeKeepsAlive(life: Lifetime, sessions: Bucket, sid: string, ceiling: Option<int>, last: int, e: Event)
    requires life.ttl >= 2 && sid != "" && Alive(life, sessions, sid, ceiling, last)
    requires e.at <= last + life.ttl / 2 + 1 && (e.Sweep? ==> e.reading <= e.at)
    requires ceiling.Some? ==> e.at <= ceiling.value
    ensures Alive(life, Serve(life, sessions, sid, e), sid, ceiling, if e.Touch? then e.at else last)
  {
  }

  lemma {:induction false} WithinGap(gap: int, now: int, last: int, events: seq<Event>, end: int)
    requires Ordered(now, events, end) && Visited(gap, last, events, end)
    ensures now <= last + gap && now <= end
    decreases |events|
  {
    if events != [] {
      WithinGap(gap, events[0].at, if events[0].Touch? then events[0].at else last, events[1..], end);
    }
  }

  lemma {:induction false} RunKeepsAlive(life: Lifetime, gap: int, sessions: Bucket, sid: string, ceiling: Option<int>,
                                         now: int, last: int, events: seq<Event>, end: int)
    requires life.ttl >= 2 && sid != "" && gap <= life.ttl / 2 + 1
    requires Ordered(now, events, end) && Visited(gap, last, events, end)
    requires ceiling.Some? ==> end <= ceiling.value
    requires Alive(life, sessions, sid, ceiling, last)
    ensures Honoured(After(life, sessions, sid, events), sid, end)
    decreases |events|
  {
    if events != [] {
      var next := if events[0].Touch? then events[0].at else last;
      WithinGap(gap, events[0].at, next, events[1..], end);
      ServeKeepsAlive(life, sessions, sid, ceiling, last, events[0]);
      RunKeepsAlive(life, gap, Serve(life, sessions, sid, events[0]), sid, ceiling, events[0].at, next, events[1..],
                    end);
    }
  }

  // A session opened at some moment, what happens to it, and the moment it is looked at
  datatype Script = Script(sessions: Bucket, sid: string, initial: Session, start: int, events: seq<Event>, end: int)

  ghost predicate Plausible(life: Lifetime, gap: int, c: Script) {
    && c.sid != "" && c.sid in c.sessions && c.sessions[c.sid] == c.initial
    && (exists userID, authenticated, amr, csrf :: c.initial == Opened(life, userID, authenticated, amr, csrf, c.start))
    && Ordered(c.start, c.events, c.end) && Visited(gap, c.start, c.events, c.end)
    && BeforeCeiling(c.initial, c.end)
  }

  predicate Survives(life: Lifetime, c: Script) {
    Honoured(After(life, c.sessions, c.sid, c.events), c.sid, c.end)
  }

  lemma FrequentVisitsKeepAlive(life: Lifetime, gap: int, c: Script)
    requires life.ttl >= 2 && (life.absolute > 0 ==> life.absolute >= life.ttl)
    requires gap <= life.ttl / 2 + 1 && Plausible(life, gap, c)
    ensures Survives(life, c)
  {
    RunKeepsAlive(life, gap, c.sessions, c.sid, c.initial.absoluteExpiresAt, c.start, c.start, c.events, c.end);
  }

  // The last visit that does not extend the session, and the next one as late as the gap allows
  function Straggler(life: Lifetime): Script {
    var initial := Opened(life, "u", true, [], "c", 0);
    var visit := Touch(life.ttl - life.ttl / 2 - 1, "c");
    Script(map["s" := initial], "s", initial, 0, [visit], life.ttl + 1)
  }

  lemma RareVisitsLoseIt(life: Lifetime, gap: int)
    requires life.ttl >= 2 && (life.absolute > 0 ==> life.absolute > life.ttl)
    requires gap > life.ttl / 2 + 1
    ensures Plausible(life, gap, Straggler(life)) && !Survives(life, Straggler(life))
  {
    var c := Straggler(life);
    var visit := c.events[0];
    assert c.events[1..] == [];
    assert StillLong(life, c.initial, visit.at);
    assert Serve(life, c.sessions, c.sid, visit) == c.sessions;
    assert After(life, c.sessions, c.sid, c.events) == After(life, c.sessions, c.sid, []);
    assert Ordered(visit.at, [], c.end) && Visited(gap, visit.at, [], c.end);
  }

  // The session already lasts to its ceiling
  predicate Full(sessions: Bucket, sid: string, ceiling: int) {
    sid in sessions && sessions[sid].absoluteExpiresAt == Some(ceiling) && sessions[sid].expiresAt >= ceiling
  }

  lemma {:induction false} FullStaysFull(life: Lifetime, sessions: Bucket, sid: string, ceiling: int, now: int,
                                         events: seq<Event>, end: int)
    requires sid != "" && Full(sessions, sid, ceiling) && Ordered(now, events, end) && end <= ceiling
    ensures Honoured(After(life, sessions, sid, events), sid, end)
    decreases |events|
  {
    if events != [] {
      OrderedToEnd(events[0].at, events[1..], end);
      FullStaysFull(life, Serve(life, sessions, sid, events[0]), sid, ceiling, events[0].at, events[1..], end);
    }
  }

  lemma {:induction false} OrderedToEnd(now: int, events: seq<Event>, end: int)
    requires Ordered(now, events, end)
    ensures now <= end
    decreases |events|
  {
    if events != [] {
      OrderedToEnd(events[0].at, events[1..], end);
    }
  }

  /** A session is honoured at every moment up to its ceiling, in every script with visits at most a gap apart,
      if and only if the gap is at most half of the sliding lifetime (and the one instant after it), or the
      ceiling is no further away than the sliding lifetime to begin with. */
  lemma KeepAliveIsExact(life: Lifetime, gap: int)
    requires life.ttl >= 2 && (life.absolute > 0 ==> life.absolute >= life.ttl)
    ensures gap <= life.ttl / 2 + 1 || life.absolute == life.ttl <==>
              forall c :: Plausible(life, gap, c) ==> Survives(life, c)
  {
    if gap <= life.ttl / 2 + 1 {
      forall c | Plausible(life, gap, c)
        ensures Survives(life, c)
      {
        FrequentVisitsKeepAlive(life, gap, c);
      }
    } else if life.absolute == life.ttl {
      forall c | Plausible(life, gap, c)
        ensures Survives(life, c)
      {
        FullStaysFull(life, c.sessions, c.sid, c.start + life.ttl, c.start, c.events, c.end);
      }
    } else {
      RareVisitsLoseIt(life, gap);
    }
  }
}
