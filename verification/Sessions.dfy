/** Session lifetime (handlers_session.go): what the handlers read from and write to the session bucket.
    A handler is a function of the bucket here, at one clock reading; SessionFlow takes it apart into steps. */
module Sessions {
  import opened Entities

  type Bucket = map<string, Session>

  // ttl: the sliding lifetime; absolute: the ceiling, none when it is not positive
  datatype Lifetime = Lifetime(ttl: int, absolute: int)

  predicate Lapsed(s: Session, now: int) {
    now > s.expiresAt || (s.absoluteExpiresAt.Some? && now > s.absoluteExpiresAt.value)
  }

  predicate BeforeCeiling(s: Session, now: int) {
    s.absoluteExpiresAt.Some? ==> now <= s.absoluteExpiresAt.value
  }

  // The session createSession stores
  function Opened(life: Lifetime, userID: string, authenticated: bool, amr: seq<string>, csrf: string,
                  now: int): Session {
    Session(userID, now + life.ttl, if life.absolute > 0 then Some(now + life.absolute) else None, now, csrf,
            if authenticated then Some(now) else None, amr)
  }

  // More than half of the lifetime is left
  predicate StillLong(life: Lifetime, s: Session, now: int) {
    life.ttl <= 0 || s.expiresAt - now > life.ttl / 2
  }

  function NewExpiry(life: Lifetime, s: Session, now: int): int {
    if s.absoluteExpiresAt.Some? && now + life.ttl > s.absoluteExpiresAt.value then s.absoluteExpiresAt.value
    else now + life.ttl
  }

  // EnsureSessionCSRF
  function WithCSRF(s: Session, csrf: string): Session {
    if s.csrfToken == "" then s.(csrfToken := csrf) else s
  }

  datatype Answer = Answer(sessions: Bucket, found: Option<Session>)

  // validSession; csrf is the token that would be drawn for a session without one
  function Validated(sessions: Bucket, sid: string, csrf: string, now: int): Answer {
    if sid == "" || sid !in sessions then Answer(sessions, None)
    else if Lapsed(sessions[sid], now) then Answer(sessions - {sid}, None)
    else
      var s := WithCSRF(sessions[sid], csrf);
      Answer(if s == sessions[sid] then sessions else sessions[sid := s], Some(s))
  }

  // maybeExtendSession
  function Touched(life: Lifetime, sessions: Bucket, sid: string, csrf: string, now: int): Answer {
    var a := Validated(sessions, sid, csrf, now);
    if a.found.None? || StillLong(life, a.found.value, now) then a
    else
      var s := a.found.value.(expiresAt := NewExpiry(life, a.found.value, now));
      Answer(a.sessions[sid := s], Some(s))
  }

  // markSessionReAuth
  function ReAuthenticated(sessions: Bucket, sid: string, now: int): Bucket {
    if sid == "" || sid !in sessions then sessions else sessions[sid := sessions[sid].(reAuthAt := Some(now))]
  }
}
