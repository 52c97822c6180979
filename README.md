# Session and token lifecycle of the auth service, modelled in Dafny

This project models the core of a NestJS authentication service: signup with email
verification, password login, and a two-tier refresh-token session with rotation and logout.
`AuthService` keeps its state in three stores:

- a Redis cache with two key families, `registration:<email>` (a staged signup) and
  `refresh:<userId>` (the current refresh token);
- the `users` table, unique by email;
- the `refresh_tokens` table, with at most one row per user id.

It also uses a JWT codec and a keyed HMAC-SHA256 digest.

The model has two layers.

- `Session` (session.dfy) is the state machine. A `State` value holds the user table, the
  codec's table of signed tokens, both cache families and the refresh-token table. Each
  operation (`Register`, `VerifyEmail`, `Login`, `IssueAccessToken`, `Logout`) is a function
  from the old state, the request and the clock reading `nowMs` to a result and the new
  state. Its `ensures` give the operation's promises: failures write nothing, errors are
  uniform, the tier rules hold, a single row per user is kept, and the invariant `Inv`
  (the schema's unique indexes) is preserved. `SessionProperties` proves what links
  several operations:
  - a verification link works once;
  - the staged password passes login;
  - a login token can be rotated at once;
  - a rotated token is refused afterwards, even after cache expiry;
  - logout ends the session;
  - refresh tokens never pass the access guard;
  - the whole signup → login → rotate walk-through succeeds.
- Four classes are shaped like the source's services. Their methods update the stores step by
  step, with loops over the tables, and each is proved against a partner:
  - `AuthServiceImpl.AuthService` methods have exactly the effect of the matching `Session`
    function (`Register`, `VerifyEmail`, `Login`, `IssueAccessToken`, `Logout`, the evictions),
    while keeping `Inv`;
  - `Users.UsersService.FindByEmail` and `Create` equal `Users.FindUser` and `Users.CreateUser`;
  - `AccessGuard.JwtAccessGuard.CanActivate` equals `AccessGuard.Authorize`;
  - `Jwt.JwtService.Sign` has no partner function. Its contract states the new codec table (the
    old one plus the signed record) and the token it returns; `Session.Sign` states the same
    effect on values.

Modelling choices:
- **Tokens.** A token is `Signed(serial)`, naming an entry of the codec's table of issued
  payloads, or `Unverifiable(claims)` (it decodes, but its signature fails), or
  `Garbage(text)`. A new token takes the next serial, so the model assumes it is distinct from
  every token signed before. A real signer can repeat a token; see the `Session.Sign` line under
  "Left out".
- **Expiry.** `exp` is `floor(now/1000) + ttl` seconds. A token is expired once the current
  second reaches `exp` (section 4.1.4 of RFC 7519).
- **HMAC.** The HMAC-SHA256 digest is a symbolic term `Hmac(key, message)`. The proofs use only
  that it is deterministic.
- **Inputs.** The clock, the mailer's `success`, and the outcome of the cache delete in logout
  are parameters. Redis TTL expiry is modelled as eviction at any time
  (`EvictRegistration`, `EvictRefresh`).

Behaviour of the source that the model keeps as written:
- `verifyEmail` never surfaces VERIFY_LINK_EXPIRED. The errors thrown at
  src/auth/auth.service.ts:89-90 and :96-97 are caught at :124 and rethrown at :129 as
  'Invalid or expired verification token' (`VerificationFailed`).
- `logout` answers 'Logout success' when no token is presented (:355-356). In every other case
  it answers with the message at :387 (`LogoutSuccess` vs `LoggedOut`).
- `issueAccessToken` chooses the tier from the `stay_login` claim (:242). It never reads the
  `tier` claim.
- `logout` with a token that does not verify does nothing: the error is swallowed at :365 and
  no user id is set.
- `login` for an existing user when PASSWORD_HASH_KEY is missing fails with a configuration
  error (:147). An unknown email is answered with INVALID_CREDENTIALS first (:139-142).

## Model

| member | source | states |
|---|---|---|
| `EnvConfig.GetPositiveIntFromEnv` | src/auth/auth.service.ts:26-30 | as written: the default unless the number is finite and > 0, else its floor (so 0 <= r <= x < r + 1) |
| `EnvConfig.FractionalSettingYieldsZero` | src/auth/auth.service.ts:26-30 | a setting of 0.5 yields 0, not a positive integer |
| `EnvConfig.PositiveIntFromEnv` | src/auth/auth.service.ts:26-30 | corrected reading: always > 0; the floor of settings >= 1, else the default |
| `EnvConfig.CorrectionOnlyAffectsFractions` | src/auth/auth.service.ts:26-30 | the corrected and the as-written reading differ exactly on finite settings strictly between 0 and 1 |
| `Jwt.Verify` | src/auth/auth.service.ts:213-223 | valid iff signed by the codec and the current second is before `exp`; expired iff signed and `exp` has been reached; otherwise malformed |
| `Jwt.Decode` | src/auth/auth.service.ts:86-87 | yields the claims of signed tokens and of tokens with a bad signature alike, with no expiry check; garbage yields nothing |
| `Jwt.FreshTokenValidIffPositiveTtl` | src/auth/auth.service.ts:163-172 | a token signed with lifetime ttl verifies in the same second iff ttl > 0, else it is already expired |
| `Jwt.VerifyStableUnderSigning` | src/auth/auth.service.ts:214-215 | signing further tokens never changes the verification of an earlier one |
| `Jwt.JwtService.Sign` | src/auth/auth.service.ts:163-172 | records the payload and `exp`; the token is new, distinct from all earlier ones |
| `Users.HashPassword` | src/users/users.service.ts:43-53 | fails exactly when PASSWORD_HASH_KEY is absent or empty; otherwise the keyed digest of the password |
| `Users.FindUser` | src/users/users.service.ts:24-26 | a row with that email, or none exactly when no row has it |
| `Users.FindUserUnique` | src/users/entities/user.entity.ts:33-35 | with the unique email index, the row found is the one user holding that email |
| `Users.CreateUser` | src/users/users.service.ts:28-41 | missing key fails before any save, taken email fails on the unique index, both leave the table unchanged; else appends a user with the keyed digest of the given password, provider local, role = given role or 2, and preserves the table invariant |
| `Users.UsersService.FindByEmail` | src/users/users.service.ts:24-26 | the table scan returns what `FindUser` specifies |
| `Users.UsersService.Create` | src/users/users.service.ts:28-41 | the table afterwards and the result are those of `CreateUser` |
| `RefreshRows.FindRow` | src/auth/auth.service.ts:178 | the position of the user's first row, or none exactly when the user has no row |
| `RefreshRows.SingleRowPerUser` | src/auth/entities/refresh-token.entity.ts:25-27 | under the unique `user_id` index a user owns no row or exactly the one found |
| `RefreshRows.Upsert` | src/auth/auth.service.ts:174-188 | keeps user ids unique, leaves the user's row holding the new token, expiry and `isRevoked=false`, grows the table only when the user had no row, and leaves other users' rows untouched |
| `RefreshRows.FindRowOfUpdate` | src/auth/auth.service.ts:179-183 | overwriting the found row in place keeps it the user's row |
| `RefreshRows.FindRowOfAppend` | src/auth/auth.service.ts:184-187 | an inserted row becomes the user's row when the user had none |
| `RefreshRows.Revoke` | src/auth/auth.service.ts:375-384 | the user's row, if any, becomes revoked with expiry = now; no row is deleted and other rows are unchanged |
| `Session.ShortTtl` | src/auth/auth.service.ts:159 | the short refresh lifetime is positive |
| `Session.CacheTtl` | src/auth/auth.service.ts:191 | the refresh cache lifetime is positive |
| `Session.AccessTtl` | src/auth/auth.service.ts:237 | the access lifetime is positive |
| `Session.Sign` | src/auth/auth.service.ts:163-172 | the token takes the next serial, so it was not issued before; the codec table grows by its record |
| `Session.SignedTokenIsFresh` | src/auth/auth.service.ts:163-172 | a freshly signed token differs from every token held in the cache or the table |
| `Session.IssuedGrows` | src/auth/auth.service.ts:163-172 | signing keeps every stored token a signed one |
| `Session.Register` | src/auth/auth.service.ts:33-80 | EMAIL_IN_USE iff a user has the email, and then nothing at all changes; delivery failure iff new email and mailer fails; success iff new email and mailer succeeds; on failure no store is written; for a new email the codec table is the old one plus exactly the verification record (lifetime JWT_EXPIRES_IN), so every earlier token keeps its expiry; on success only `registration:<email>` is set and the returned token is that newly signed one, decoding to the verification claims |
| `Session.DecodedEmail` | src/auth/auth.service.ts:86-91 | the `email` claim of the decoded payload exactly when the token decodes and that claim is truthy; never empty |
| `Session.VerifyEmail` | src/auth/auth.service.ts:83-131 | every failure is the one generic verification error and leaves the state unchanged; success iff a truthy email decodes, a signup is staged under it and `create` accepts it; success creates the staged user, deletes `registration:<email>` and replies with the created user's id, email and display name |
| `Session.VerifyEmailCreatesUser` | src/auth/auth.service.ts:106-114 | after success the user holding the email has the keyed digest of the staged password, role 2, provider local, and the staged entry is gone |
| `Session.Login` | src/auth/auth.service.ts:134-203 | failures change nothing and are INVALID_CREDENTIALS (unknown email, digest mismatch, both directions) or the configuration error (key missing for a known user); success has the effects in `LoginEffect`: reported TTL 30 days or the short TTL, a fresh refresh token signed with exactly that lifetime (the codec table is the old one plus that record) and verifying now with refresh claims, `refresh:<id>` holds it with the REFRESH_CACHE TTL, the table is untouched for the short tier and for the long tier is exactly the upsert of the user's row with the new token, not revoked, expiry now + 30 days |
| `Session.LoginLeavesSingleRow` | src/auth/auth.service.ts:174-188 | a long-tier login leaves exactly one row for the user |
| `Session.CheckRefresh` | src/auth/auth.service.ts:207-234 | the common chain: TOKEN_EXPIRED exactly for a present token the codec reports expired; otherwise every failure is INVALID_TOKEN; success iff present, verified, type refresh, truthy email and sub, and the user found by email has id = sub |
| `Session.IssueAccessToken` | src/auth/auth.service.ts:207-350 | failures change nothing and are INVALID_TOKEN or TOKEN_EXPIRED; success iff the common chain passes and the tier decision table `StoredSessionAccepts` accepts; on success `RotationEffect`: new refresh token differs from the presented one and replaces it in the cache (short TTL, or 1 hour for the long tier) and, for the long tier only, in the single table row; the access token verifies now with access claims; the codec table is the old one plus the two new records, the refresh token living the reported 30 days or short TTL and the access token the ACCESS_TTL |
| `Session.Logout` | src/auth/auth.service.ts:352-388 | never fails; the missing-token reply differs from the other; a token that does not verify, or has no truthy sub, changes nothing; otherwise `refresh:<sub>` is deleted unless the delete fails, and for `stay_login` the row is soft-revoked; users, staged signups and row count never change |
| `Session.EvictRegistration` | src/auth/auth.service.ts:67 | TTL expiry removes exactly `registration:<email>`: every other staged signup, the cache, the tables and the codec are kept, and so is the invariant |
| `Session.EvictRefresh` | src/auth/auth.service.ts:192 | TTL expiry removes exactly `refresh:<uid>`: every other cache entry, the staged signups, the tables and the codec are kept, and so is the invariant |
| `SessionProperties.RegisterTakenEmailIgnoresMailer` | src/auth/auth.service.ts:34-42 | with a taken email the outcome is EMAIL_IN_USE and the unchanged state, whatever the mailer would say |
| `SessionProperties.VerifyEmailIsSingleUse` | src/auth/auth.service.ts:113-114 | a second verification with the same token fails with the generic error |
| `SessionProperties.VerifiedCredentialsLogIn` | src/auth/auth.service.ts:145-156 | after verification, login with the staged email and password succeeds in either tier |
| `SessionProperties.LoginTokenRotates` | src/auth/auth.service.ts:207-350 | the token a login returns is accepted by `issueAccessToken` at once, and the access token carries the user's id and email |
| `SessionProperties.RotatedTokenIsRejected` | src/auth/auth.service.ts:242-262 | after a successful rotation the presented token fails at any later time, even after the cache entry expires; INVALID_TOKEN while the token itself has not expired |
| `SessionProperties.RotatedInTokenRotates` | src/auth/auth.service.ts:305-332 | the token a rotation hands out is itself accepted at once |
| `SessionProperties.FindRowSeesOnlyIds` | src/auth/auth.service.ts:378 | the row lookup depends only on the rows' user ids |
| `SessionProperties.LogoutEndsSession` | src/auth/auth.service.ts:369-384 | after logout with a token that verifies and a cache delete that goes through, rotating that token fails at any later time, in either tier |
| `SessionProperties.SignupToRotation` | src/auth/auth.service.ts:33-350 | register, verify, short login, rotate R1 into R2: the short login writes no row, R1 then fails with INVALID_TOKEN and R2 is accepted |
| `SessionProperties.LoginTokenRefusedByGuard` | src/auth/guards/jwt-access.guard.ts:20-22 | the refresh token a login returns is always refused by the access guard |
| `SessionProperties.RotationAccessTokenAdmitted` | src/auth/auth.service.ts:334-338 | the access token of a rotation passes the guard, which sets the user to the token's id and email |
| `AccessGuard.Authorize` | src/auth/guards/jwt-access.guard.ts:8-28 | missing cookie iff "Missing access token"; every other failure is the one generic error; success iff the token verifies with type access and a truthy sub, and then the request user is {sub, email} |
| `AccessGuard.OtherTypesRefused` | src/auth/guards/jwt-access.guard.ts:20-22 | a verified token of any type other than access is refused |
| `AccessGuard.JwtAccessGuard.CanActivate` | src/auth/guards/jwt-access.guard.ts:8-28 | the guard's steps produce the decision of `Authorize` |
| `AuthServiceImpl.AuthService.FindRowIndex` | src/auth/auth.service.ts:178 | the scan of the table returns the row `FindRow` specifies |
| `AuthServiceImpl.AuthService.UpsertRow` | src/auth/auth.service.ts:174-188 | the table afterwards is `Upsert` of the old one |
| `AuthServiceImpl.AuthService.Register` | src/auth/auth.service.ts:33-80 | result and new stores are those of `Session.Register`; the invariant is kept |
| `AuthServiceImpl.AuthService.VerifyEmail` | src/auth/auth.service.ts:83-131 | result and new stores are those of `Session.VerifyEmail`; the invariant is kept |
| `AuthServiceImpl.AuthService.Login` | src/auth/auth.service.ts:134-203 | result and new stores are those of `Session.Login`; the invariant is kept |
| `AuthServiceImpl.AuthService.IssueAccessToken` | src/auth/auth.service.ts:207-350 | result and new stores are those of `Session.IssueAccessToken`; the invariant is kept |
| `AuthServiceImpl.AuthService.ValidateRefresh` | src/auth/auth.service.ts:207-234 | the presence, verification, shape and user checks yield exactly `CheckRefresh`, writing nothing |
| `AuthServiceImpl.AuthService.RotateShortTier` | src/auth/auth.service.ts:242-279 | the short-tier branch writes the cache and codec exactly as `Session.RotateShort` |
| `AuthServiceImpl.AuthService.RotateLongTier` | src/auth/auth.service.ts:281-303 | the long-tier validation and rotation behave exactly as `Session.RotateLong` |
| `AuthServiceImpl.AuthService.CommitLongTier` | src/auth/auth.service.ts:305-349 | the long-tier writes are exactly those of `Session.CommitLong` |
| `AuthServiceImpl.AuthService.Logout` | src/auth/auth.service.ts:352-388 | reply and new stores are those of `Session.Logout`; the invariant is kept |
| `AuthServiceImpl.AuthService.ExpireRegistration` | src/auth/auth.service.ts:67 | Redis expiry of the staged signup, as `EvictRegistration` |
| `AuthServiceImpl.AuthService.ExpireRefresh` | src/auth/auth.service.ts:192 | Redis expiry of `refresh:<uid>`, as `EvictRefresh` |

## Findings

| source | as written | input that shows it | evidently intended | confidence | as-written member | corrected member |
|---|---|---|---|---|---|---|
| src/auth/auth.service.ts:26-30 | `getPositiveIntFromEnv` returns `Math.floor(parsed)` whenever `parsed > 0`, which is 0 for settings between 0 and 1 | REFRESH_TTL_SHORT=0.5 gives a short refresh lifetime of 0 s, so a short-tier login token is already expired when it is signed (`Jwt.FreshTokenValidIffPositiveTtl`) and `issueAccessToken` refuses it with TOKEN_EXPIRED at :217-219; REFRESH_CACHE=0.5 makes the cache write at :192 ask Redis for `EX 0`, which Redis refuses as an invalid expire time | a positive whole number of seconds, falling back to the default otherwise | not executed; high | `EnvConfig.FractionalSettingYieldsZero` (about `EnvConfig.GetPositiveIntFromEnv`) | `EnvConfig.PositiveIntFromEnv` |

The session model reads every tunable through `PositiveIntFromEnv`. The two readings differ only
for settings strictly between 0 and 1 (`EnvConfig.CorrectionOnlyAffectsFractions`).

## Left out

- Mail transport (src/mail/mail.service.ts) is not part of this model. Only the `success`
  outcome of `sendVerificationEmail` is kept, as the parameter `mailOk`. An exception thrown
  by the mailer is I/O.
- JWT signing and verification are library code, and so is HMAC-SHA256. The codec is a table
  of issued payloads, and the digest is a symbolic term. No proof depends on the digest being
  injective.
- `Number(raw)` parsing of environment strings is left out. Tunables enter the model as the
  parsed number (`JsNumber`).
- ACTIVE_TTL (line 66) is not modelled. The TTL given to `registration:<email>` is not
  recorded, and its expiry is an eviction that may happen at any time.
- Real time is not modelled. `Date.now()` is the parameter `nowMs`, one reading per call, and
  Redis TTL expiry is the eviction operations.
- Concurrency is not modelled. Concurrent rotations for one user, where the last writer wins,
  are outside the model, which is sequential.
- I/O failures of cache `set`/`get` and repository `save`/`findOne` are not modelled. Only the
  swallowed failure of the cache delete in logout is a parameter.
- The JSON serialisation of the staged signup is left out, and so is its JSON parse. The cache
  holds the DTO itself.
- Response messages other than logout's two replies are left out, and so are logging and
  controller cookie handling.
- Timestamps, soft-delete columns and surrogate row ids are left out. So are nullable user
  emails, the `UNIQUE(token)` constraint of the refresh-token table, and admin seeding.
- A cookie value that is not a string is not modelled. A token argument is `Option<Token>`, and
  both `None` and the empty string count as missing.
- `Session.ShortTtl`, `Session.CacheTtl`, `Session.AccessTtl`: these read REFRESH_TTL_SHORT,
  REFRESH_CACHE and ACCESS_TTL through the corrected `PositiveIntFromEnv`. The source at
  src/auth/auth.service.ts:159, :191 and :237-238 uses the as-written reading, which gives 0
  for a setting strictly between 0 and 1. The model therefore does not cover such settings.
  With REFRESH_TTL_SHORT=0.5 a short-tier login token is TOKEN_EXPIRED at :217. The lemmas
  that rely on positive lifetimes are `SessionProperties.LoginTokenRotates`,
  `SessionProperties.RotatedInTokenRotates`, `SessionProperties.RotationAccessTokenAdmitted`
  and `SessionProperties.SignupToRotation`. They hold only for settings that are >= 1 or unset.
- `Session.Sign`, `Jwt.JwtService.Sign`: that a new token differs from every earlier one is an
  assumption of the model. jsonwebtoken signing is deterministic, so equal payloads signed in
  the same second give the same string. A short login (:163-171) and a short rotation in the
  same second (:250-259) sign identical payloads. So do a long login and a long rotation,
  both with "2592000s" (:306-315). In that case the rotated-out token equals the rotated-in
  one, and it stays accepted. The lemmas that rely on freshness are
  `SessionProperties.RotatedTokenIsRejected`, `SessionProperties.SignupToRotation`, which logs in and rotates
  at the same `nowMs`, and `Session.SignedTokenIsFresh`.
- `Session.Register`: the verification token is signed with the module's default lifetime,
  JWT_EXPIRES_IN (src/auth/auth.module.ts:28). The model takes that setting as an optional
  number of seconds (`Env.jwtDefaultTtl`). When it is unset (`None`), the model signs a token
  without `exp` and registration goes on. The real signer receives `expiresIn: undefined` and
  refuses it, so `register` throws at src/auth/auth.service.ts:45 before mailing. The model does
  not capture that failure. It also does not parse duration strings such as "1h".
