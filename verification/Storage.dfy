/** The store (store.go): one bbolt transaction per method. Each bucket is a map that the transactions update. */
module Storage {
  import opened Entities
  import opened Transactions
  import opened Consents
  import opened Sessions
  import opened Handlers

  // sweepBucketTx: collect the stale keys, then delete them
  method SweepBucket<K(==), V>(bucket: map<K, V>, expiry: V -> int, now: int) returns (kept: map<K, V>, removed: nat)
    ensures kept == Swept(bucket, expiry, now)
    ensures removed == |bucket| - |kept|
  {
    var stale := StaleKeys(bucket, v => now > expiry(v));
    kept := bucket;
    for i := 0 to |stale|
      invariant kept == map k | k in bucket && k !in stale[..i] :: bucket[k]
      invariant |kept| == |bucket| - i
    {
      assert stale[..i + 1] == stale[..i] + [stale[i]];
      assert stale[i] in kept;
      assert (kept - {stale[i]}).Keys == kept.Keys - {stale[i]};
      kept := kept - {stale[i]};
    }
    assert stale[..|stale|] == stale;
    removed := |stale|;
  }

  // The walk over a bucket that collects keys to delete
  method StaleKeys<K(==), V>(bucket: map<K, V>, stale: V -> bool) returns (keys: seq<K>)
    ensures forall k :: k in keys <==> k in bucket && stale(bucket[k])
    ensures forall i, j :: 0 <= i < j < |keys| ==> keys[i] != keys[j]
  {
    keys := [];
    var todo := bucket.Keys;
    while todo != {}
      invariant todo <= bucket.Keys
      invariant forall k :: k in keys <==> k in bucket.Keys - todo && stale(bucket[k])
      invariant forall i, j :: 0 <= i < j < |keys| ==> keys[i] != keys[j]
      decreases |todo|
    {
      var k :| k in todo;
      todo := todo - {k};
      if stale(bucket[k]) {
        keys := keys + [k];
      }
    }
  }

  class Store {
    var sessions: Bucket
    var requests: map<string, AuthRequest>
    var codes: map<Digest, AuthCode>
    var refresh: map<Digest, RefreshToken>
    var consumed: map<Digest, Tombstone>
    var revoked: map<string, int>
    var consents: map<string, Consent>
    var registrations: map<string, ChallengeRecord> // WebAuthn challenges; no modelled handler reads these two buckets
    var logins: map<string, ChallengeRecord>

    ghost function Value(): Db
      reads this
    {
      Db(sessions, requests, codes, refresh, consumed, revoked, consents)
    }

    constructor (db: Db)
      ensures Value() == db && registrations == map[] && logins == map[]
    {
      sessions, requests, codes, refresh := db.sessions, db.requests, db.codes, db.refresh;
      consumed, revoked, consents := db.consumed, db.revoked, db.consents;
      registrations, logins := map[], map[];
    }

    // ---- Sessions ----

    method GetSession(sid: string) returns (found: Option<Session>)
      ensures found == Taken(sessions, sid)
    {
      found := if sid in sessions then Some(sessions[sid]) else None;
    }

    method PutSession(sid: string, s: Session)
      modifies this`sessions
      ensures sessions == old(sessions)[sid := s]
    {
      sessions := sessions[sid := s];
    }

    method EnsureSessionCSRF(sid: string, csrf: string) returns (found: Option<Session>)
      modifies this`sessions
      ensures sid in old(sessions) ==>
                found == Some(WithCSRF(old(sessions)[sid], csrf)) && sessions == old(sessions)[sid := found.value]
      ensures sid !in old(sessions) ==> found.None? && sessions == old(sessions)
    {
      if sid !in sessions {
        return None;
      }
      var s := sessions[sid];
      if s.csrfToken == "" {
        s := s.(csrfToken := csrf);
        sessions := sessions[sid := s];
      }
      found := Some(s);
    }

    method DeleteSession(sid: string)
      modifies this`sessions
      ensures sessions == old(sessions) - {sid}
    {
      sessions := sessions - {sid};
    }

    // ---- Authorization requests and codes ----

    method GetAuthRequest(id: string) returns (found: Option<AuthRequest>)
      ensures found == Taken(requests, id)
    {
      found := if id in requests then Some(requests[id]) else None;
    }

    method PutAuthRequest(ar: AuthRequest)
      modifies this`requests
      ensures requests == old(requests)[ar.id := ar]
    {
      requests := requests[ar.id := ar];
    }

    method ConsumeAuthRequest(id: string) returns (found: Option<AuthRequest>)
      modifies this`requests
      ensures found == Taken(old(requests), id) && requests == old(requests) - {id}
    {
      if id !in requests {
        return None;
      }
      found := Some(requests[id]);
      requests := requests - {id};
    }

    method PutAuthCode(key: Digest, ac: AuthCode)
      modifies this`codes
      ensures codes == old(codes)[key := ac]
    {
      codes := codes[key := ac];
    }

    method ConsumeAuthCode(key: Digest) returns (found: Option<AuthCode>)
      modifies this`codes
      ensures found == Taken(old(codes), key) && codes == old(codes) - {key}
    {
      if key !in codes {
        return None;
      }
      found := Some(codes[key]);
      codes := codes - {key};
    }

    // ---- Refresh tokens ----

    method GetRefreshToken(key: Digest) returns (found: Option<RefreshToken>)
      ensures found == Taken(refresh, key)
    {
      found := if key in refresh then Some(refresh[key]) else None;
    }

    method PutRefreshToken(key: Digest, token: RefreshToken)
      modifies this`refresh
      ensures refresh == old(refresh)[key := token]
    {
      refresh := refresh[key := token];
    }

    method DeleteRefreshToken(key: Digest) returns (deleted: bool)
      modifies this`refresh
      ensures refresh == old(refresh) - {key} && deleted == (key in old(refresh))
    {
      deleted := key in refresh;
      if deleted {
        refresh := refresh - {key};
      }
    }

    method GetConsumedRefreshToken(key: Digest) returns (found: Option<Tombstone>)
      ensures found == Taken(consumed, key)
    {
      found := if key in consumed then Some(consumed[key]) else None;
    }

    /** The compare-and-swap of rotation: it does all of its three writes, or nothing when the old token is gone. */
    method RotateRefreshToken(key: Digest, newKey: Digest, next: RefreshToken, tombstone: Tombstone)
      returns (rotated: bool)
      modifies this`refresh, this`consumed
      ensures rotated == (key in old(refresh))
      ensures rotated ==> Value() == WithRotation(old(Value()), key, Rotation(newKey, next, tombstone))
      ensures !rotated ==> Value() == old(Value())
    {
      if key !in refresh {
        return false;
      }
      refresh := refresh - {key};
      consumed := consumed[key := tombstone];
      refresh := refresh[newKey := next];
      rotated := true;
    }

    method RevokeRefreshTokenFamily(family: string)
      modifies this`refresh
      ensures refresh == WithoutFamily(old(refresh), family)
    {
      if family == "" {
        return;
      }
      var stale := StaleKeys(refresh, (t: RefreshToken) => t.familyID == family);
      for i := 0 to |stale|
        invariant refresh == map k | k in old(refresh) && k !in stale[..i] :: old(refresh)[k]
      {
        assert stale[..i + 1] == stale[..i] + [stale[i]];
        refresh := refresh - {stale[i]};
      }
      assert stale[..|stale|] == stale;
    }

    // ---- Revoked access tokens and consents ----

    method GetRevokedJTI(jti: string) returns (found: Option<int>)
      ensures found == Taken(revoked, jti)
    {
      found := if jti in revoked then Some(revoked[jti]) else None;
    }

    method PutRevokedJTI(jti: string, exp: int)
      modifies this`revoked
      ensures revoked == old(revoked)[jti := exp]
    {
      revoked := revoked[jti := exp];
    }

    method DeleteRevokedJTI(jti: string)
      modifies this`revoked
      ensures revoked == old(revoked) - {jti}
    {
      revoked := revoked - {jti};
    }

    method GetConsent(userID: string, clientID: string) returns (found: Option<Consent>)
      ensures found == Taken(consents, ConsentKey(userID, clientID))
    {
      var k := ConsentKey(userID, clientID);
      found := if k in consents then Some(consents[k]) else None;
    }

    method PutConsent(rec: Consent) returns (ok: bool)
      modifies this`consents
      ensures ok == (rec.userID != "" && rec.clientID != "")
      ensures consents == if ok then old(consents)[ConsentKey(rec.userID, rec.clientID) := rec] else old(consents)
    {
      if rec.userID == "" || rec.clientID == "" {
        return false;
      }
      consents := consents[ConsentKey(rec.userID, rec.clientID) := rec];
      ok := true;
    }

    // ---- WebAuthn challenges ----

    method PutWebAuthnRegistration(challenge: string, rec: ChallengeRecord)
      modifies this`registrations
      ensures registrations == old(registrations)[challenge := rec]
    {
      registrations := registrations[challenge := rec];
    }

    method ConsumeWebAuthnRegistration(challenge: string) returns (found: Option<ChallengeRecord>)
      modifies this`registrations
      ensures found == Taken(old(registrations), challenge) && registrations == old(registrations) - {challenge}
    {
      if challenge !in registrations {
        return None;
      }
      found := Some(registrations[challenge]);
      registrations := registrations - {challenge};
    }

    method PutWebAuthnLogin(challenge: string, rec: ChallengeRecord)
      modifies this`logins
      ensures logins == old(logins)[challenge := rec]
    {
      logins := logins[challenge := rec];
    }

    method ConsumeWebAuthnLogin(challenge: string) returns (found: Option<ChallengeRecord>)
      modifies this`logins
      ensures found == Taken(old(logins), challenge) && logins == old(logins) - {challenge}
    {
      if challenge !in logins {
        return None;
      }
      found := Some(logins[challenge]);
      logins := logins - {challenge};
    }

    // ---- Sweep ----

    method SweepLogins(now: int) returns (removed: nat)
      modifies this`sessions, this`requests, this`codes
      ensures sessions == Swept(old(sessions), SessionExpiry, now)
      ensures requests == Swept(old(requests), RequestExpiry, now)
      ensures codes == Swept(old(codes), CodeExpiry, now)
      ensures removed == old(|sessions| + |requests| + |codes|) - (|sessions| + |requests| + |codes|)
    {
      hide Swept;
      var n1, n2, n3;
      sessions, n1 := SweepBucket(sessions, SessionExpiry, now);
      requests, n2 := SweepBucket(requests, RequestExpiry, now);
      codes, n3 := SweepBucket(codes, CodeExpiry, now);
      removed := n1 + n2 + n3;
    }

    method SweepTokens(now: int) returns (removed: nat)
      modifies this`refresh, this`consumed, this`revoked
      ensures refresh == Swept(old(refresh), RefreshExpiry, now)
      ensures consumed == Swept(old(consumed), TombstoneExpiry, now)
      ensures revoked == Swept(old(revoked), JtiExpiry, now)
      ensures removed == old(|refresh| + |consumed| + |revoked|) - (|refresh| + |consumed| + |revoked|)
    {
      hide Swept;
      var n1, n2, n3;
      refresh, n1 := SweepBucket(refresh, RefreshExpiry, now);
      consumed, n2 := SweepBucket(consumed, TombstoneExpiry, now);
      revoked, n3 := SweepBucket(revoked, JtiExpiry, now);
      removed := n1 + n2 + n3;
    }

    method SweepChallenges(now: int) returns (removed: nat)
      modifies this`registrations, this`logins
      ensures registrations == Swept(old(registrations), ChallengeExpiry, now)
      ensures logins == Swept(old(logins), ChallengeExpiry, now)
      ensures removed == old(|registrations| + |logins|) - (|registrations| + |logins|)
    {
      hide Swept;
      var n1, n2;
      registrations, n1 := SweepBucket(registrations, ChallengeExpiry, now);
      logins, n2 := SweepBucket(logins, ChallengeExpiry, now);
      removed := n1 + n2;
    }

    /** Drops every record past its expiry, from every runtime bucket, and nothing else. */
    method SweepExpired(now: int) returns (total: nat)
      modifies this
      ensures Value() == SweptDb(old(Value()), now)
      ensures registrations == Swept(old(registrations), ChallengeExpiry, now)
      ensures logins == Swept(old(logins), ChallengeExpiry, now)
      ensures total == old(Size(Value()) + |registrations| + |logins|) - (Size(Value()) + |registrations| + |logins|)
    {
      hide Swept;
      var sessionsAndCodes := SweepLogins(now);
      var tokens := SweepTokens(now);
      var challenges := SweepChallenges(now);
      total := sessionsAndCodes + tokens + challenges;
    }
  }

  function Size(db: Db): nat {
    |db.sessions| + |db.requests| + |db.codes| + |db.refresh| + |db.consumed| + |db.revoked|
  }
}
