/** What each store transaction does to its buckets (store.go), and the records that
    the token endpoint prepares for them (handlers_oauth.go). */
module Transactions {
  import opened Entities

  // sweepBucketTx
  function Swept<K, V>(bucket: map<K, V>, expiresAt: V -> int, now: int): map<K, V> {
    map k | k in bucket && !(now > expiresAt(bucket[k])) :: bucket[k]
  }

  // RevokeRefreshTokenFamily
  function WithoutFamily(active: map<Digest, RefreshToken>, family: string): map<Digest, RefreshToken> {
    if family == "" then active else map k | k in active && active[k].familyID != family :: active[k]
  }

  datatype Rotation = Rotation(key: Digest, next: RefreshToken, tombstone: Tombstone)

  // newRefreshRotation; the family is drawn only for a token that has none
  function NewRotation(prior: RefreshToken, clientID: string, scope: string, secret: string, drawnFamily: string,
                       now: int, ttl: int): Rotation {
    var family := if prior.familyID == "" then drawnFamily else prior.familyID;
    Rotation(Digest(secret),
             RefreshToken(prior.userID, clientID, scope, prior.authTime, now + ttl, prior.amr, family,
                          prior.generation + 1),
             Tombstone(prior.userID, clientID, family, prior.expiresAt))
  }
}
