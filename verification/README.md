# authbroker: a model of its grant, session, limiter, decoder and key logic

authbroker is an OAuth 2.0 and OpenID Connect broker that keeps its state in a bbolt store. This project models the
parts of it in which steps of different requests meet, or in which a long-lived invariant is at stake, and states what
they guarantee. `dafny verify dfyconfig.toml` checks all of it.

How the model is laid out:

- **Concurrent protocols.** `RefreshFamilies`, `AuthorizationFlow` and `SessionFlow` are state machines. A request in
  flight is a record of the next thing it will do; each bbolt transaction and each clock reading is one step, and steps
  of different requests, of the sweeper and of the clock interleave freely. A request may be aborted before any step.
  `GrantLifecycle` runs the first two together. `RefreshTheorems`, `AuthorizationTheorems`, `ConsentExactness` and
  `SessionTheorems` state what holds in every reachable state and over every continuation.
- **Handlers one at a time.** `Handlers` describes each endpoint as a function of the store at one clock reading.
  `Storage.Store` and `Brokers.Broker` are the transactions and the handlers as classes that update buckets, each tied
  to its function. `SoloRefresh`, `SoloFlow`, `SoloGrant`, `SoloSession` and `SoloLogin` show that each of these
  functions is a run of the concurrent protocol in which nobody else moves. `Runs` strings calls and sweeps together.
  `RequestLife`, `CodeLife`, `TokenLife`, `LoginLife` and `AccessTokens` say what each endpoint answers and exactly how
  long what it hands out is good, over any run; `TokenRevocation`, `Revocation`, `SweepTransparency`, `KeepAlive` and
  `Introspection` reason about such runs too, and `BrokerRuns` carries them over to a running broker object.
- **Rate limiter.** `RateLimiter.LoginRateLimiter` is the limiter as a class; `RateBound`, `LimiterTransparency` and
  `LimiterExactness` reason about runs on one key.
- **CBOR and authenticator data.** `Cbor` is the decoder, `CborEncoding` an encoder written from section 3 of RFC 8949,
  `CborValues` says which values can be decoded, `AuthData` the byte layout of sections 6.1 and 6.5.1 of WebAuthn Level 2.
- **Signing keys.** `SigningKeys.ManagedSigningKeySet` is the managed set as a class; `KeyLifecycle`, `KeyRetention` and
  `KeyCount` reason about runs of process starts and issued tokens.

Conventions: times are nanoseconds and the clock never goes back; a key is created or retired, and a token expires, in
whole Unix seconds; a day of key age is 86400 seconds. `hashSecret` is a digest that different secrets never share.
`randomB64` draws strings that were never drawn before. The PKCE hash, the signature check of a JWT and the outcome of a
password check are parameters.

Where the code needed an exact condition, the condition is part of the result: consent is sound exactly when client ids
cannot be confused in consent keys; a deleted session stays deleted exactly when no request in flight may still write
it back; retention is safe exactly from the token lifetime plus the skew on; visits keep a session alive exactly up to
a gap of half its lifetime and one clock tick; a revoked token is still accepted exactly when its deadline falls between
the two clock readings of `verifyJWT`, whatever has happened to its tombstone; the limiter's housekeeping as a whole,
and a single sweep by itself, can be seen exactly when it allows two or more attempts and neither its window nor its
lockout is empty; and a value can be decoded exactly when it is representable.

The limiter's reference is a ledger of failures whose locks end by themselves: it never prunes or sweeps, and an allow
does not change it.

## Model

| member | source | states |
|---|---|---|
| `RefreshFamilies.StepInv` | handlers_oauth.go:388-571 | Every transaction and clock reading of tokenRefresh, of the refresh part of a code grant, of revokeRefreshToken and of the sweeper keeps the invariant of the refresh buckets, whatever else is in flight |
| `RefreshFamilies.InitInv` | store.go:414-462 | A fresh store, or one whose tokens predate families, satisfies that invariant |
| `RefreshTheorems.OneActiveTokenPerFamily` | store.go:467-487 | In every reachable interleaving a non-empty family has at most one active token and no key is both active and consumed |
| `RefreshTheorems.FamilyBelongsToOneGrant` | handlers_oauth.go:513-545 | All tokens ever stored under a family share user, client, authentication time and AMR, and the active one's generation is the number of rotations the family has had |
| `RefreshTheorems.AtMostOneRefreshPerSecret` | handlers_oauth.go:388-462 | Each secret yields at most one successful refresh response, and the token handed out in its place keeps the grant and only narrows the scope |
| `RefreshTheorems.TombstoneLastsToExpiry` | handlers_oauth.go:529-543 | Until the original expiry of a rotated token its tombstone is in the store, with that token's user, client, expiry and the family of its successor |
| `RefreshTheorems.ReplayIsCaught` | handlers_oauth.go:547-571 | A rotated token presented again by its own client, with the clock read no later than its expiry, goes on to revoke the family, whatever other requests do between the lookup and the clock reading |
| `RefreshTheorems.RevokedFamilyStaysDead` | store.go:489-515 | Once a family revocation has committed no token of the family is ever active again, even if a refresh in flight had already read the live token |
| `RefreshTheorems.GoneTokenStaysGone` | store.go:437-448 | A refresh token that was revoked, rotated, burned or swept is never active again, in any continuation |
| `RefreshTheorems.RevokedTokenStaysDead` | handlers_oauth.go:1065-1079 | Once the delete of a revocation has committed the token never becomes active again, whatever request had already read it |
| `AuthorizationFlow.StepInv` | handlers_session.go:48-166 | Every transaction, registry lookup and clock reading of authorize, login, consent, code issue and redemption keeps the invariant of requests, consents and codes, under any interleaving |
| `AuthorizationTheorems.RequestsAreLinear` | store.go:368-384 | In every reachable state an authorization request is stored, or held by exactly one handler, or spent on a code, and never two of these |
| `AuthorizationTheorems.OneGrantPerRequest` | handlers_oauth.go:312-385 | A request leads to at most one code, and at most one token response |
| `AuthorizationTheorems.GrantHonoursRequest` | handlers_oauth.go:323-371 | A token response matches the client, redirect URI, nonce, scope and PKCE challenge of the request it came from; that scope lay within what the client was allowed at the request |
| `AuthorizationTheorems.PresentedCodeIsBurned` | handlers_oauth.go:312-321 | Presenting a stored code removes it for good, whoever presents it and whatever the checks then say |
| `AuthorizationTheorems.ConsentIsSound` | consent.go:24-41 | When a code is issued on the strength of a consent, the same user approved each of its scopes for the same client at some point, in every interleaving, if client ids cannot be confused in consent keys |
| `AuthorizationTheorems.UnconsentedWasWaived` | consent.go:25-34 | A code issued without consent was issued for a client that, when proceedAfterAuthn looked it up for that request, was registered as requiring none |
| `AuthorizationTheorems.RequiredConsentIsGiven` | consent.go:24-41 | When every lookup for a code's request found a client that requires consent, the user approved each of its scopes for that client, in every interleaving, if client ids cannot be confused in consent keys |
| `ConsentExactness.ConsentSoundnessIsExact` | store.go:872-874 | Consent is sound in every reachable state if and only if no client id ends in a vertical bar followed by another client id |
| `ConsentExactness.SharedKeyMixesConsents` | consent.go:162-176 | For any two clients and users with the same consent key there is a run that ends with a code whose scope its user never approved for its client |
| `Consents.ConsentKeysCollideExactly` | store.go:872-874 | Two clients share a consent key for some pair of users exactly when one client id ends in a vertical bar followed by the other |
| `Consents.PipelessIdsAreDistinguishable` | store.go:872-874 | Client ids without a vertical bar are never confused |
| `GrantLifecycle.StepInv` | handlers_oauth.go:711-727 | The authorization flow and the refresh protocol run together, a token response with offline access founding a family, and every step keeps where each family came from |
| `GrantLifecycle.ScopeNarrowsEndToEnd` | handlers_oauth.go:420-427 | After any number of refreshes the scope of a response lies within the scope of the authorization request behind its family, which lay within the client's allowed scopes at that time, and the family's first token had offline_access |
| `GrantLifecycle.OneFamilyPerRequest` | handlers_oauth.go:372-377 | An authorization request founds at most one refresh family |
| `Scopes.AuthorizationScopeExact` | scopes.go:99-117 | A requested scope is accepted exactly when the client may ask for every word of it; the stored string has the same words, each once, and parses back to them |
| `Scopes.AllowedExactly` | scopes.go:46-71 | A client may ask for the scopes it is configured with, or the four standard ones, and for offline access where that is enabled; for nothing if a configured scope is not a standard one or offline access is configured but not enabled |
| `Scopes.RefusalIsTrue` | scopes.go:99-117 | A refusal names a word of the request that really is malformed, not supported or not allowed |
| `Scopes.TrimKeepsTokens` | handlers_oauth.go:391 | Trimming a scope loses no word, and leaves nothing exactly when there was no word |
| `Scopes.TrimIsTight` | handlers_oauth.go:904-904 | What is trimmed away is white space at the two ends, and all of it |
| `Scopes.NormalizeScopeTokens` | scopes.go:161-177 | Gives each word once, or the first word that is not a valid scope token |
| `Scopes.ValidateAuthorizationScope` | scopes.go:99-117 | The loop with its sets gives the accepted scope or the first refusal |
| `Scopes.ScopeSubset` | handlers_oauth.go:579-590 | True exactly when every requested word is a granted word |
| `Scopes.FieldsOfJoin` | scopes.go:99-117 | Splitting a joined list of words gives the words back |
| `Consents.RequestedScopeList` | consent.go:187-199 | The words of the scope string, in ascending order, each once, and nothing else |
| `Consents.ConsentCovers` | consent.go:204-215 | True exactly when every wanted scope is among the granted ones |
| `Consents.MergeScopeSets` | consent.go:217-234 | The union of both lists, in ascending order, without repetition |
| `Consents.MergeScopesIsUnion` | consent.go:217-234 | Merging neither loses nor invents a scope, and gives an ascending list |
| `Consents.MergeOrderNeverMatters` | consent.go:217-234 | Merging is commutative, associative and idempotent, down to the stored list |
| `Sorting.SortKeeps` | consent.go:197-198 | Sorting keeps every word, and words without repetition come out strictly ascending |
| `Sorting.AscendingIsCanonical` | consent.go:232-233 | An ascending list is determined by its words |
| `RateLimiter.LoginRateLimiter.constructor` | ratelimit.go:31-39 | A new limiter has no entries |
| `RateLimiter.LoginRateLimiter.Allow` | ratelimit.go:46-65 | Answers by the lock of the key's entry, with the time left on it, clears an entry whose lock ran out, and leaves other keys alone |
| `RateLimiter.LoginRateLimiter.RecordFailure` | ratelimit.go:88-112 | Drops failures outside the window, adds this one and sets the lock at the limit; other keys are unchanged |
| `RateLimiter.LoginRateLimiter.AllowAndRecord` | ratelimit.go:76-86 | An admitted call is recorded, a refused one is not |
| `RateLimiter.LoginRateLimiter.RecordSuccess` | ratelimit.go:114-121 | Forgets the key and nothing else |
| `RateLimiter.LoginRateLimiter.Sweep` | ratelimit.go:125-147 | Removes exactly the entries with no live lock and no recent failure |
| `RateBound.RateIsBounded` | ratelimit.go:46-112 | On a key never reset by a success, with at most c callers between admission and recording, any half-open interval of length min(window, lockout) has at most maxAttempts + c - 1 admitted attempts that go on to record, across pruning, lazy clearing and sweeps |
| `RateBound.RateBoundIsTight` | ratelimit.go:46-112 | For all limits and every c there is a run that reaches that bound |
| `RateBound.SuccessSparesIPKeys` | handlers_session.go:758-787 | A successful login clears an address-wide key exactly when the login had no username |
| `LimiterTransparency.HousekeepingIsTransparent` | ratelimit.go:46-147 | For all limits: if each failure follows an admission of its caller with no lock set in between, every allow gives the answer and retry time of a limiter that never prunes or sweeps, does nothing at an allow, and whose locks end by themselves when their time is up |
| `LimiterTransparency.DegenerateLimitsAreTransparent` | ratelimit.go:46-147 | When a single failure locks, or the window or the lockout is empty, the same holds of every run, however callers overlap |
| `LimiterExactness.StragglerIsForgotten` | ratelimit.go:46-112 | For all other limits there is a run, in which each caller asks once and records at most once after its admission, that ends with the limiter admitting a caller whom that reference refuses: the failure of a straggler is cleared with the old lock |
| `LimiterExactness.TransparencyIsExact` | ratelimit.go:46-147 | Housekeeping shows in no run with such callers if and only if maxAttempts is at most one, or the window or the lockout is empty |
| `LimiterExactness.StragglerSeesTheSweep` | ratelimit.go:125-147 | For all other limits there are two runs of the limiter with such callers that differ in one sweep only, and in the answer to the last caller |
| `LimiterExactness.SweepShowsExactly` | ratelimit.go:125-147 | Adding a sweep changes no answer or retry time in any run with such callers if and only if maxAttempts is at most one, or the window or the lockout is empty |
| `Cbor.ParseCBORDepth` | cbor.go:42-130 | The loops with their cursor compute the recursive decoder: same value, same rest, same error |
| `Cbor.ParseItems` | cbor.go:85-95 | The element loop computes the recursive decoder of n items |
| `Cbor.ParsePairs` | cbor.go:102-126 | The entry loop computes the recursive decoder of n pairs; a repeated key overwrites |
| `CborEncoding.DecodeInvertsEncode` | cbor.go:42-159 | Decoding the encoding of any legal item, written with the argument widths of section 3 of RFC 8949 at each head and followed by any bytes, gives the item's value and those bytes; the encoder shares no table with the decoder |
| `CborEncoding.DecodedWasEncoded` | cbor.go:42-159 | Whatever is decoded was the encoding of a legal item with that value: the decoder accepts nothing but encodings |
| `CborEncoding.ArgumentsAreRead` | cbor.go:132-159 | A head announces an argument of one, two, four or eight bytes, of which each width is double the one before; exactly that many are read, and fewer are the end of the input |
| `CborEncoding.CutShortIsEOF` | cbor.go:42-159 | A legal encoding cut short at any byte is refused as the end of the input, at any nesting, with or without the length guards |
| `CborEncoding.DecoderIsLocal` | cbor.go:42-130 | A successful parse consumes a non-empty prefix, and that prefix followed by other bytes parses to the same value with exactly those bytes left |
| `CborValues.ItemFor` | cbor.go:42-159 | Every value of int64 integers, int or text keys and countable lengths, nested no deeper than the limit, is the value of a legal item |
| `CborValues.LegalIsRepresentable` | cbor.go:42-159 | The value of a legal item is such a value |
| `CborValues.DecodableExactly` | cbor.go:42-130 | A value has an encoding that decodes to it and leaves over whatever follows if and only if it is such a value |
| `CborEncoding.GuardsAreRedundant` | cbor.go:77-101 | A decoder without the array and map length guards accepts the same inputs with the same results |
| `CborEncoding.EncodingsArePrefixFree` | cbor.go:42-130 | No encoding is a proper prefix of another |
| `AuthData.ParseAttestedAuthData` | handlers_webauthn.go:478-512 | The offset arithmetic computes the layout fields, or the first failing check |
| `AuthData.AttestationInvertsLayout` | handlers_webauthn.go:478-512 | Parsing a layout of any fields and any eight flags gives its counter, credential id and public key, or the first thing that is wrong with it: relying party, presence, verification, attested data, public key |
| `AuthData.CutLayoutIsRefused` | handlers_webauthn.go:478-512 | An acceptable layout cut short at any byte up to the public key is refused with the part that is missing |
| `AuthData.AcceptedIsLayout` | handlers_webauthn.go:478-512 | Whatever is accepted is a layout of what was parsed, byte for byte, with the three flags set and a public key |
| `SigningKeys.ManagedSigningKeySet.constructor` | signing_keys.go:273-279 | Holds the given set |
| `SigningKeys.ManagedSigningKeySet.Validate` | signing_keys.go:317-355 | True exactly for a set whose keys parse under ids of their own and whose active key is there and not retired |
| `SigningKeys.ManagedSigningKeySet.ActiveIndex` | signing_keys.go:357-364 | The first index of the active id, or -1 |
| `SigningKeys.ManagedSigningKeySet.Prune` | signing_keys.go:386-402 | Drops exactly the retired keys past retention, in place and in order, and reports whether any was dropped |
| `SigningKeys.ManagedSigningKeySet.SigningKeyConfigs` | signing_keys.go:404-414 | One configuration entry per key, active for the active id |
| `SigningKeys.ManagedSigningKeySet.RotateAndPrune` | signing_keys.go:281-315 | Generates, rotates and prunes as the value-level function says, fails exactly when the set does not validate before or after, leaves the stated set behind in either case, and on success reports a change exactly when there is one |
| `SigningKeys.CountActive` | signing_keys.go:88-96 | Counts the active flags |
| `SigningKeys.BuildSigningKeySet` | signing_keys.go:25-55 | Succeeds exactly when every key parses, trimmed ids differ and exactly one key is picked, and then gives that key and all ids |
| `SigningKeys.BuildExactly` | signing_keys.go:114-119 | The key to sign with is the only flagged one; without flags the only one there is, or the one with the configured id; in every other case, and when a key does not parse, nothing is loaded, and all keys verify |
| `SigningKeys.EmptySetIsFilled` | signing_keys.go:281-315 | An empty set gets one new active key, which is not rotated at once even when a rotation is forced |
| `KeyLifecycle.SoundSetIsLoaded` | signing_keys.go:25-55 | From a well-formed managed set buildSigningKeySet picks the active key and verifies under every key |
| `KeyLifecycle.StartRenews` | signing_keys.go:196-231 | A start never fails from a well-formed set, and a set generated by this start is not rotated at once |
| `KeyLifecycle.StepInv` | signing_keys.go:181-231 | Every start and every token issue keeps stored and loaded keys well formed and in step |
| `KeyLifecycle.ManagedSetsStayWellFormed` | signing_keys.go:281-414 | After any run of starts and issues the ids differ, exactly one key is not retired, and it is the one new tokens are signed under |
| `KeyRetention.RetentionCoversLiveTokens` | signing_keys.go:386-402 | If every start is given a retention, not always the same, that is disabled or at least the longest token lifetime plus the skew, every token that jwtExpired still accepts has its key loaded, after any starts, rotations and prunes |
| `KeyRetention.ShortRetentionLosesTokens` | signing_keys.go:386-402 | For any shorter retention there is a run that drops the key of a token still accepted |
| `KeyRetention.RetentionIsExact` | jwt.go:143-150 | Retention is safe in every run if and only if it is disabled or at least the token lifetime plus the skew |
| `KeyCount.KeySetStaysSmall` | signing_keys.go:366-402 | With rotation period P > 0, retention R >= 0 and no forced rotation the set never exceeds R/P + 2 keys |
| `KeyCount.KeyBoundIsTight` | signing_keys.go:366-402 | For all P and R there is a run that holds exactly R/P + 2 keys |
| `SessionFlow.StepInv` | handlers_session.go:517-701 | With get and put as separate interleaved steps, every copy of a session, stored or in flight, keeps its login and ceiling, expires no later than its ceiling, and keeps its CSRF token once it has one |
| `SessionTheorems.SessionNeverChanges` | handlers_session.go:553-652 | A session found at two moments of a run has the same user, authentication time, AMR and ceiling, and the same CSRF token once it was set |
| `SessionTheorems.CeilingIsAbsolute` | handlers_session.go:531-536 | No stored expiry exceeds its ceiling, and no session is honoured after its ceiling |
| `SessionTheorems.SweepClearsCeilings` | store.go:616-622 | A sweep that looks at sliding expiry only leaves no session past its ceiling |
| `SessionTheorems.DeletedStaysDeletedExactly` | handlers_session.go:594-652 | A session that is no longer stored stays away in every continuation if and only if no request in flight may still write it back |
| `KeepAlive.FrequentVisitsKeepAlive` | handlers_session.go:622-637 | A session visited at gaps of at most half the sliding lifetime is honoured at every moment up to its ceiling, whatever sweeps and other requests run in between |
| `KeepAlive.KeepAliveIsExact` | handlers_session.go:622-637 | That holds in every script if and only if the gap is at most half of the sliding lifetime plus one clock tick, or the ceiling is no later than the first expiry |
| `LoginLife.SessionLasts` | handlers_session.go:517-549 | A session that nobody visits is honoured exactly up to the end of its sliding lifetime or its ceiling, whatever other calls and sweeps come in between |
| `LoginLife.VisitLasts` | handlers_session.go:594-652 | A visit leaves a session as it is while more than half of its lifetime is left, and otherwise renews it for one lifetime but not past the ceiling; it is then honoured exactly up to that end, over any run |
| `LoginLife.LoginLasts` | handlers_session.go:678-690 | After a login with good credentials, with or without an authorization request, the cookie is honoured for that user with the moment and means of the login, exactly up to the sliding lifetime or the ceiling, over any run without the cookie |
| `LoginLife.FailedLoginOpensNothing` | handlers_session.go:73-112 | A login that fails opens no session; an expired request is reported as such, and after wrong credentials the store is as it was |
| `LoginLife.LogoutEnds` | handlers_session.go:230-251 | A logout is accepted exactly without a visitor or with the visitor's CSRF token, and the cookie is then never honoured again, over any run; a refused logout changes nothing for the visitor |
| `LoginLife.ReAuthStampsExactly` | handlers_session.go:172-213 | A session is stamped exactly when its visitor sends its CSRF token and the right password, and nothing else about it changes |
| `SoloLogin.SessionsAlone` | handlers_session.go:517-690 | Whatever the call, what its handler does to the session bucket is a run of the concurrent session protocol in which nobody else moves |
| `Brokers.Broker.ValidSession` | handlers_session.go:517-549 | Gives the session and leaves the bucket as the value-level function says: expired sessions are deleted, a missing CSRF token is added |
| `Brokers.Broker.MaybeExtendSession` | handlers_session.go:594-652 | As above, and extends past half of the lifetime, clamped by the ceiling |
| `Brokers.Broker.MarkSessionReAuth` | handlers_session.go:553-567 | Stamps the stored session, if there is one |
| `Brokers.Broker.CreateSession` | handlers_session.go:678-690 | Stores a new session with its expiry, ceiling and stamp under the drawn id |
| `Brokers.Broker.CheckPrompt` | handlers_oauth.go:140-203 | Refuses or forces a login by prompt, max_age, session and consent |
| `Brokers.Broker.HandleAuthorize` | handlers_oauth.go:44-108 | Ends in the state and with the answer of Handlers.Authorized, which RequestLife.AuthorizeAnswers characterises |
| `Brokers.Broker.HandleLoginGet` | handlers_session.go:14-45 | Shows the form for a live request and refuses a missing or expired one alike |
| `Brokers.Broker.HandleLoginPost` | handlers_session.go:73-165 | Consumes the request, restores it when the credentials fail, and otherwise stores the session and goes on with the request, as LoginLife.LoginLasts and RequestLife.LoginAnswers characterise |
| `Brokers.Broker.HandleConsentGet` | consent.go:85-119 | Shows the request to its session, and refuses a missing or expired one alike |
| `Brokers.Broker.HandleConsentPost` | consent.go:122-185 | Consumes the request, merges and records the consent and issues the code, or refuses, as RequestLife.DecideAnswers characterises |
| `Brokers.Broker.ProceedAfterAuthn` | consent.go:24-64 | Issues a code when consent is not required or on record, and stashes the request otherwise |
| `Brokers.Broker.IssueCodeRedirect` | handlers_session.go:703-717 | Stores a code with the request's client, redirect URI, scope, nonce and challenge and the session's login |
| `Brokers.Broker.HandleReAuth` | handlers_session.go:172-213 | Stamps a live session after the CSRF and password checks |
| `Brokers.Broker.HandleLocalLogoutPost` | handlers_session.go:230-251 | Deletes the session unless a live one comes with a wrong CSRF token |
| `Brokers.Broker.TokenAuthorizationCode` | handlers_oauth.go:312-385 | Burns the code on any attempt, grants tokens exactly when it passes every check, and stores the refresh token under the secret it hands out, as CodeLife.CodeLasts and CodeLife.RedeemedTokenLasts characterise |
| `Brokers.Broker.TokenRefresh` | handlers_oauth.go:388-571 | Revokes on reuse, burns an expired token, refuses a wider scope without consuming the token, rotates otherwise, as TokenLife.TokenLasts, RefreshedTokenLasts and ReplayEndsFamily characterise |
| `Brokers.Broker.VerifyTokenNotRevoked` | jwt.go:157-176 | Refuses while the tombstone lives and drops it once it has expired |
| `Brokers.Broker.VerifyJWT` | jwt.go:54-141 | Gives the claims of a token with a good signature, issuer, time and no tombstone |
| `Brokers.Broker.IntrospectRefreshToken` | handlers_oauth.go:943-968 | Active exactly for a stored, unexpired token of the asking client |
| `Brokers.Broker.IntrospectJWT` | handlers_oauth.go:970-1033 | Active exactly for a verified token whose client or audience is the asking client |
| `Brokers.Broker.HandleIntrospect` | handlers_oauth.go:904-941 | Tries both token kinds in the order of the hint |
| `Brokers.Broker.RevokeRefreshToken` | handlers_oauth.go:1065-1079 | Deletes the token exactly if it belongs to the client, as TokenRevocation.RevocationIsExact characterises |
| `Brokers.Broker.RevokeJWT` | handlers_oauth.go:1081-1096 | Writes a tombstone that expires with the skewed expiry if the token verifies and belongs to the client |
| `Brokers.Broker.HandleRevoke` | handlers_oauth.go:1050-1062 | Does both and answers the same in any case |
| `Brokers.Broker.HandleUserInfo` | handlers_oauth.go:844-860 | Answers for a verified access token only |
| `Brokers.Broker.Serve` | handlers_oauth.go:34-108 | Every endpoint of the model ends in the state and with the answer of its function |
| `RequestLife.AuthorizeAnswers` | handlers_oauth.go:34-203 | A query is acceptable exactly for a registered client, one of its addresses, scopes it may ask for and PKCE where required, and otherwise fails and changes nothing; an acceptable one gets a code at once exactly when the visitor's login will do and no consent is missing, and the code carries that login; prompt=none is never sent to a page, and prompt=login or a login older than max_age never leads to a code |
| `RequestLife.AuthorizeRenews` | handlers_oauth.go:80-108 | A visitor whose login will do is renewed as by a visit |
| `RequestLife.ProceedAnswers` | consent.go:24-64 | After authentication a code is issued exactly when no consent is needed or a recorded one covers every scope; otherwise the request waits five minutes for the answer, unless too many are stored |
| `RequestLife.LoginAnswers` | handlers_session.go:73-165 | A login to a live request goes on as that user, authenticated at that moment, to a code or to the consent page |
| `RequestLife.DecideAnswers` | consent.go:122-185 | A code is issued exactly when a visitor approves a live request with the session's CSRF token; it carries the visitor's login, and the approval covers the request's scopes from then on; a denied request is gone |
| `RequestLife.ConsentIsRemembered` | consent.go:162-176 | What a user approved for a client stays approved over any run of calls and sweeps |
| `RequestLife.ConsentPageIsAnswerable` | consent.go:85-119 | The consent page shows a request exactly when the visitor's answer to it would be heard at that moment |
| `RequestLife.LoginPageIsOpen` | handlers_session.go:14-45 | The login page is shown for a request exactly when a login to it would not be refused as expired |
| `RequestLife.SignInRoundTrip` | handlers_oauth.go:34-385 | From the query over the login to the redemption, with any calls and sweeps in between: tokens are given exactly within the lifetime of the code to the query's client at the query's address with the verifier of its challenge, and they name the user, the moment and means of the login, and the nonce and scopes of the query |
| `CodeLife.CodeLasts` | handlers_oauth.go:312-385 | A stored code is honoured exactly up to its expiry and exactly for its client, address and PKCE verifier of section 4.1 of RFC 7636, over any run that does not present it, and the response names the login behind it |
| `CodeLife.RedeemedTokenLasts` | handlers_oauth.go:711-727 | The refresh token in the response is good for exactly one refresh lifetime, for its client and within the scope of the code, over any run that spares it, and what it gives names the code's login |
| `TokenLife.TokenLasts` | handlers_oauth.go:388-462 | A stored refresh token can be exchanged by its own client exactly up to its expiry and exactly for scopes within its own, over any run that spares it: others may present or revoke it, and its client may ask for too much |
| `TokenLife.RefreshedTokenLasts` | handlers_oauth.go:513-545 | The secret in a refresh response is good for exactly one refresh lifetime from that refresh, and every response names the same user, login time and means |
| `TokenLife.ReplayEndsFamily` | handlers_oauth.go:547-571 | A token that was exchanged is never honoured again, over any run; presented by its own client before it would have expired, it leaves no token of its family |
| `TokenRevocation.RevocationIsExact` | handlers_oauth.go:1065-1079 | A revocation takes away the presented token exactly if the caller owns it, and no other token |
| `TokenRevocation.RevokedTokenIsDead` | handlers_oauth.go:1035-1079 | Once its own client has revoked a refresh token no refresh with it succeeds and no introspection shows it, whoever asks, over any run |
| `TokenRevocation.OthersCannotRevoke` | handlers_oauth.go:1065-1079 | A revocation by anyone else, or of another token, leaves a token good exactly as long as before |
| `AccessTokens.VerifiedExactly` | jwt.go:129-176 | A token verifies exactly when it is of this issuer, within thirty seconds of its window and not barred by a live tombstone; its tombstone is dropped exactly when it no longer counts |
| `AccessTokens.UnrevokedTokenIsGood` | jwt.go:129-176 | A token that its owner has not revoked is good exactly within its window over any run: introspection shows it to its holders and to nobody else, and userinfo answers for it if it is an access token |
| `AccessTokens.RevokedTokenTellsNothing` | handlers_oauth.go:844-1033 | A token revoked by its owner while it was good is shown to nobody and answered for by no endpoint, over any run |
| `Storage.Store.GetSession` | store.go:292-304 | The stored session, if any |
| `Storage.Store.PutSession` | store.go:306-310 | Writes one session and nothing else |
| `Storage.Store.EnsureSessionCSRF` | store.go:317-337 | In one transaction, keeps the first CSRF token or installs this one |
| `Storage.Store.DeleteSession` | store.go:339-343 | Removes one session |
| `Storage.Store.GetAuthRequest` | store.go:347-359 | The stored request, if any |
| `Storage.Store.PutAuthRequest` | store.go:361-365 | Writes the request under its own id |
| `Storage.Store.ConsumeAuthRequest` | store.go:368-384 | Reads and removes in one transaction |
| `Storage.Store.PutAuthCode` | store.go:388-392 | Writes one code |
| `Storage.Store.ConsumeAuthCode` | store.go:394-410 | Reads and removes in one transaction |
| `Storage.Store.GetRefreshToken` | store.go:414-426 | The active token, if any |
| `Storage.Store.PutRefreshToken` | store.go:428-432 | Writes one token |
| `Storage.Store.DeleteRefreshToken` | store.go:437-448 | Removes one token and says whether it was there |
| `Storage.Store.GetConsumedRefreshToken` | store.go:450-462 | The tombstone, if any |
| `Storage.Store.RotateRefreshToken` | store.go:467-487 | All three writes when the old token is there, none otherwise |
| `Storage.Store.RevokeRefreshTokenFamily` | store.go:489-515 | Removes exactly the tokens of a non-empty family |
| `Storage.Store.GetRevokedJTI` | store.go:519-531 | The tombstone expiry, if any |
| `Storage.Store.PutRevokedJTI` | store.go:533-537 | Writes one tombstone |
| `Storage.Store.DeleteRevokedJTI` | store.go:539-543 | Removes one tombstone |
| `Storage.Store.GetConsent` | store.go:876-888 | The record under the pair's key, if any |
| `Storage.Store.PutConsent` | store.go:890-897 | Writes the record under its own key, and refuses one without user or client |
| `Storage.Store.PutWebAuthnRegistration` | store.go:547-549 | Writes one registration challenge |
| `Storage.Store.ConsumeWebAuthnRegistration` | store.go:551-553 | Reads and removes in one transaction |
| `Storage.Store.PutWebAuthnLogin` | store.go:555-557 | Writes one login challenge |
| `Storage.Store.ConsumeWebAuthnLogin` | store.go:559-561 | Reads and removes in one transaction |
| `Storage.Store.SweepExpired` | store.go:616-659 | Removes exactly the records past their expiry, from all eight runtime buckets, and counts them |
| `Storage.SweepBucket` | store.go:661-685 | Collects and deletes exactly the expired keys, and counts them |
| `Storage.StaleKeys` | store.go:667-677 | The walk over a bucket collects each matching key once |
| `SweepTransparency.HandledAgrees` | handlers_oauth.go:464-571 | On two stores that agree on everything live, any call gives the same answer and leaves stores that agree on everything live |
| `SweepTransparency.SweepsAreUnobservable` | store.go:616-685 | From any store, any sequence of calls gets the same answers with sweeps at arbitrary earlier clock readings as without any sweep |
| `Revocation.RevocationIsPermanent` | handlers_oauth.go:1081-1096 | Once its owner has revoked a good token no later verification accepts it, although its tombstone may be swept or lazily deleted in between |
| `Revocation.RevocationRaceExactly` | jwt.go:129-176 | After its owner revoked a good token, and whatever calls and sweeps ran up to the tombstone lookup, a verification with two clock readings accepts the token exactly when its deadline falls between the readings; the tombstone may be there, swept or lazily deleted by then |
| `BrokerRuns.ServeAll` | store.go:616-659 | A broker object that serves any calls and makes any sweeps gives the answers and ends in the state of the run of functions |
| `BrokerRuns.ServeBoth` | store.go:616-659 | Two broker objects with equal stores, one swept and one not, give the same answers to any calls |
| `BrokerRuns.RevokeAndServe` | handlers_oauth.go:1081-1096 | A broker object that was asked by its owner to revoke a good token does not verify it after serving anything else |
| `BrokerRuns.RevokeTokenAndServe` | handlers_oauth.go:1065-1079 | A broker object that was asked by its own client to revoke a refresh token grants nothing for it after serving anything else |
| `Introspection.IntrospectionAgreesWithRedemption` | handlers_oauth.go:929-968 | In every reachable state and at every instant a refresh token introspects as active for a client exactly when a refresh by that client with the trimmed token and no scope would succeed, and with the same user and scope; a refresh with the token as it stands succeeds exactly when it is active and has no white space around it, since introspection trims and tokenRefresh does not |
| `Introspection.HintNeverMatters` | handlers_oauth.go:929-941 | token_type_hint changes neither the answer nor the store |
| `SoloRefresh.RefreshAloneIsARun` | handlers_oauth.go:388-462 | The refresh handler as a function is a run of the concurrent protocol in which nobody else moves: same buckets, and a response exactly when it grants one, with the secret and the login of the token it stored |
| `TokenRevocation.RevokeAloneIsARun` | handlers_oauth.go:1065-1079 | The same for a revocation: a lookup, and a delete if the token is the caller's |
| `SoloGrant.GrantAlone` | handlers_oauth.go:312-385 | A redemption is a run of the grant lifecycle on the code bucket and on the refresh bucket: a response with a refresh token founds the family that its secret belongs to |
| `SoloFlow.AuthorizeAlone` | handlers_oauth.go:34-108 | The authorize handler as a function is a run of the concurrent flow in which nobody else moves: same buckets, and a code on record exactly when the client is sent one |
| `SoloFlow.ProceedAlone` | consent.go:24-64 | The same for the branch after authentication |
| `SoloFlow.LoginAlone` | handlers_session.go:73-165 | The same for a login to an authorization request, failed or not |
| `SoloFlow.DecideAlone` | consent.go:122-185 | The same for the answer to the consent page |
| `SoloFlow.RedeemAlone` | handlers_oauth.go:312-385 | The same for a redemption: the code is gone, and a grant is on record exactly when tokens are given, with the same user, scope, nonce, login and offline access |
| `SoloSession.ValidateAlone` | handlers_session.go:517-549 | validSession as a function is a run of the concurrent session protocol in which nobody else moves |
| `SoloSession.ExtendAlone` | handlers_session.go:594-652 | The same for maybeExtendSession |
| `SoloSession.ReAuthAlone` | handlers_session.go:172-213 | The same for a confirmed password |

## Left out

- HTTP plumbing, cookies, templates, audit events, metrics and the admin pages: input and output, or easy members
- RSA, ECDSA, SHA-256, HMAC, base64, JSON and PEM: a digest is injective, a signature check and a PEM parse are parameters
- LDAP, group mappings, TOTP and the WebAuthn ceremonies: a login is the user and the AMR it gave, or a failure
- Claims of access and ID tokens: a token response records user, client, scope, nonce, authentication time and AMR
- The state parameter and creation time of an authorization request: carried along and echoed, never decided on
- WebAuthn challenges in SweepTransparency.SweepsAreUnobservable: which limiter key is charged depends on whether an expired record is still there
- RP-initiated logout and its id_token_hint, client_credentials grants and app tokens: no state that the other parts read
- Store errors other than as an abort of the request before its next step, and the loss of a signing-key write at start
- Migration of a signing-keys.json file and keys given in the configuration: runs begin with a generated set
- SigningKeys.ManagedSigningKeySet.RotateAndPrune: a calendar day is 86400 seconds
- KeyRetention.RetentionIsExact: token lifetimes are whole seconds, as the configuration gives them in minutes
- Revocation.RevocationIsPermanent: one clock reading per verification, and token ids are taken to be unique; the two readings of the code are treated in Revocation.RevocationRaceExactly
- SweepTransparency.SweepsAreUnobservable: one clock reading per call, and the answers of the rate limiters are parameters of the call
- RequestLife.SignInRoundTrip: one clock reading per call, as in all results about runs of calls; steps of calls that overlap are treated in the concurrent protocols
- GrantLifecycle.ScopeNarrowsEndToEnd: says nothing about families whose first token predates families, beyond the narrowing itself
