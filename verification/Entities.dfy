/** The records the broker persists (broker.go, store.go, config.go). Times are nanoseconds. */
module Entities {
  datatype Option<+T> = None | Some(value: T)
  datatype Result<+T, +E> = Ok(value: T) | Err(error: E)

  // hashSecret: buckets are keyed by a digest that different secrets never share
  datatype Digest = Digest(secret: string)

  datatype Client = Client(id: string, redirectURIs: seq<string>, isPublic: bool, requirePKCE: bool,
                           allowedScopes: seq<string>, allowOffline: bool, requireConsent: bool)

  // absoluteExpiresAt: the zero time of the source is None
  datatype Session = Session(userID: string, expiresAt: int, absoluteExpiresAt: Option<int>, authTime: int,
                             csrfToken: string, reAuthAt: Option<int>, amr: seq<string>)

  datatype AuthRequest = AuthRequest(id: string, clientID: string, redirectURI: string, scope: string, nonce: string,
                                     codeChallenge: string, codeChallengeMethod: string, expiresAt: int)

  datatype AuthCode = AuthCode(userID: string, clientID: string, redirectURI: string, scope: string, nonce: string,
                               codeChallenge: string, codeChallengeMethod: string, authTime: int, expiresAt: int,
                               amr: seq<string>)

  datatype RefreshToken = RefreshToken(userID: string, clientID: string, scope: string, authTime: int, expiresAt: int,
                                       amr: seq<string>, familyID: string, generation: int)

  datatype Tombstone = Tombstone(userID: string, clientID: string, familyID: string, expiresAt: int)

  datatype Consent = Consent(userID: string, clientID: string, scopes: seq<string>)

  // A WebAuthn challenge that was handed out
  datatype ChallengeRecord = ChallengeRecord(userID: string, challenge: string, expiresAt: int)

  const SECOND: int := 1_000_000_000
  const MINUTE: int := 60 * SECOND

  // jwtClockSkew
  const SKEW: int := 30 * SECOND

  // randomB64: unpadded base64url, never empty
  predicate Base64Url(s: string) {
    s != "" && forall c :: c in s ==> 'A' <= c <= 'Z' || 'a' <= c <= 'z' || '0' <= c <= '9' || c == '-' || c == '_'
  }
}
