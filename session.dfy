/**
 * The session engine of `AuthService` (src/auth/auth.service.ts) as a state machine over the
 * stores it uses: the user table, the codec's table of signed tokens, the Redis cache with its
 * two key families `registration:<email>` and `refresh:<userId>`, and the `refresh_tokens` table.
 *
 * Each operation is a function from the old state (and the request, the clock reading `nowMs`
 * in milliseconds, and the outcome of outside calls) to a result and the new state. The
 * imperative `AuthService` class is proved to follow these functions step for step.
 */
module Session {
  import opened Wrappers
  import opened Jwt
  import opened Users
  import opened RefreshRows
  import opened EnvConfig

  const ThirtyDaysSec: nat := 30 * 24 * 60 * 60
  const ThirtyDaysMs: nat := ThirtyDaysSec * 1000
  const OneHourSec: nat := 60 * 60
  const VerifiedRoleId: int := 2

  /** The errors the service raises, one per message it can surface. */
  datatype AuthError =
    | EmailInUse            // AUTH_001
    | InvalidCredentials    // AUTH_002
    | TokenExpired          // AUTH_003
    | InvalidToken          // AUTH_004
    | EmailDeliveryFailed   // 'Failed to send verification email'
    | VerificationFailed    // 'Invalid or expired verification token'
    | ConfigurationError    // 'PASSWORD_HASH_KEY is required'

  /** The configuration the service reads, each tunable as the result of `Number(raw)`. */
  datatype Env = Env(
    refreshTtlShort: JsNumber,    // REFRESH_TTL_SHORT
    refreshCache: JsNumber,       // REFRESH_CACHE
    accessTtl: JsNumber,          // ACCESS_TTL
    hashKey: Option<string>,      // PASSWORD_HASH_KEY
    jwtDefaultTtl: Option<nat>)   // JWT_EXPIRES_IN, the codec's default lifetime

  datatype RegisterDto = RegisterDto(email: string, password: string, displayName: Option<string>)
  datatype LoginDto = LoginDto(email: string, password: string, stayLogin: bool)

  /** A `refresh:<userId>` cache entry and the TTL (seconds) it was written with. */
  datatype CacheEntry = CacheEntry(token: Token, ttl: int)

  datatype State = State(
    users: UserTable,
    issued: seq<SignedRecord>,
    registrations: map<string, RegisterDto>,   // `registration:<email>`
    refreshCache: map<int, CacheEntry>,        // `refresh:<userId>`
    rows: seq<RefreshRow>)                     // the `refresh_tokens` table

  datatype RegisterOk = RegisterOk(email: string, activeToken: Token)
  datatype VerifiedUser = VerifiedUser(id: int, email: string, displayName: Option<string>)
  datatype LoginOk = LoginOk(refreshTtl: int, stayLogin: bool, refreshToken: Token)
  datatype Rotated = Rotated(
    accessToken: Token,
    refreshToken: Token,
    accessTtl: int,
    refreshTtl: int,
    refreshCacheTtl: Option<int>)   // only the long tier reports the cache lifetime

  /** Logout answers 'Logout success' when no token is presented and its own message otherwise. */
  datatype LogoutReply = LogoutSuccess | LoggedOut

  // ---------------------------------------------------------------------------------------
  // Tunables

  function ShortTtl(env: Env): (r: nat)
    ensures r > 0
  {
    PositiveIntFromEnv(env.refreshTtlShort, 3600) as nat
  }

  function CacheTtl(env: Env): (r: nat)
    ensures r > 0
  {
    PositiveIntFromEnv(env.refreshCache, 3600) as nat
  }

  function AccessTtl(env: Env): (r: nat)
    ensures r > 0
  {
    PositiveIntFromEnv(env.accessTtl, 15 * 60) as nat
  }

  // ---------------------------------------------------------------------------------------
  // Payloads

  function VerificationClaims(email: string, nowMs: nat): Claims {
    Claims(Some("email_verification"), None, Some(email), None, None, Some(nowMs))
  }

  function RefreshClaims(uid: int, email: string, stayLogin: bool): Claims {
    Claims(Some("refresh"), Some(uid), Some(email), Some(stayLogin),
           Some(if stayLogin then "long" else "short"), None)
  }

  function AccessClaims(uid: int, email: string): Claims {
    Claims(Some("access"), Some(uid), Some(email), None, None, None)
  }

  // ---------------------------------------------------------------------------------------
  // Invariants

  /** Every token held by the cache or the table was signed by the codec. */
  ghost predicate StoredTokensIssued(s: State) {
    && (forall uid :: uid in s.refreshCache ==> IsIssued(s.issued, s.refreshCache[uid].token))
    && (forall i :: 0 <= i < |s.rows| ==> IsIssued(s.issued, s.rows[i].token))
  }

  /**
   * What holds of every reachable state: the schema's unique indexes, a pending registration
   * stored under its own email, and only signed tokens in the stores.
   */
  ghost predicate Inv(s: State) {
    && TableInv(s.users)
    && UniqueUserIds(s.rows)
    && (forall e :: e in s.registrations ==> s.registrations[e].email == e)
    && StoredTokensIssued(s)
  }

  /** The four stores are untouched (the codec's table may still have grown). */
  ghost predicate SameStores(s: State, s': State) {
    && s'.users == s.users
    && s'.registrations == s.registrations
    && s'.refreshCache == s.refreshCache
    && s'.rows == s.rows
  }

  /** `sign`: the new token names the next free entry of the codec's table. */
  function Sign(s: State, c: Claims, ttl: Option<nat>, nowMs: nat): (r: (Token, State))
    ensures r.0 == Signed(|s.issued|) && !IsIssued(s.issued, r.0)
    ensures r.1 == s.(issued := s.issued + [SignedRecord(c, ExpiryAfter(nowMs, ttl))])
  {
    (Signed(|s.issued|), s.(issued := s.issued + [SignedRecord(c, ExpiryAfter(nowMs, ttl))]))
  }

  /** A freshly signed token differs from every token the stores hold. */
  lemma SignedTokenIsFresh(s: State, c: Claims, ttl: Option<nat>, nowMs: nat)
    requires StoredTokensIssued(s)
    ensures var t := Sign(s, c, ttl, nowMs).0;
            && (forall uid :: uid in s.refreshCache ==> s.refreshCache[uid].token != t)
            && (forall i :: 0 <= i < |s.rows| ==> s.rows[i].token != t)
  {
  }

  /** Signing more tokens keeps the stored tokens signed. */
  lemma IssuedGrows(s: State, more: seq<SignedRecord>)
    requires StoredTokensIssued(s)
    ensures StoredTokensIssued(s.(issued := s.issued + more))
  {
  }

  // ---------------------------------------------------------------------------------------
  // register

  /**
   * `register`: refuse an email that already has a user; otherwise sign a verification token,
   * send it (`mailOk` is the mailer's `success`), and only on success stage the signup.
   */
  function Register(s: State, env: Env, dto: RegisterDto, mailOk: bool, nowMs: nat)
    : (r: (Result<RegisterOk, AuthError>, State))
    ensures r.0 == Failure(EmailInUse) <==> FindUser(s.users.rows, dto.email).Some?
    ensures r.0 == Failure(EmailInUse) ==> r.1 == s
    ensures r.0 == Failure(EmailDeliveryFailed) <==> FindUser(s.users.rows, dto.email).None? && !mailOk
    ensures r.0.Success? <==> FindUser(s.users.rows, dto.email).None? && mailOk
    ensures FindUser(s.users.rows, dto.email).None? ==>
              r.1.issued == s.issued + [SignedRecord(VerificationClaims(dto.email, nowMs), ExpiryAfter(nowMs, env.jwtDefaultTtl))]
    ensures r.0.Success? ==> r.0.value.activeToken == Signed(|s.issued|)
    ensures r.0.Failure? ==> SameStores(s, r.1)
    ensures r.0.Success? ==>
              && r.1.registrations == s.registrations[dto.email := dto]
              && r.1.users == s.users && r.1.refreshCache == s.refreshCache && r.1.rows == s.rows
              && r.0.value.email == dto.email
              && Decode(r.1.issued, r.0.value.activeToken) == Some(VerificationClaims(dto.email, nowMs))
    ensures Inv(s) ==> Inv(r.1)
  {
    if FindUser(s.users.rows, dto.email).Some? then (Failure(EmailInUse), s)
    else
      var (t, s1) := Sign(s, VerificationClaims(dto.email, nowMs), env.jwtDefaultTtl, nowMs);
      assert StoredTokensIssued(s) ==> StoredTokensIssued(s1) by {
        if StoredTokensIssued(s) { IssuedGrows(s, [s1.issued[|s.issued|]]); }
      }
      if !mailOk then (Failure(EmailDeliveryFailed), s1)
      else (Success(RegisterOk(dto.email, t)), s1.(registrations := s1.registrations[dto.email := dto]))
  }

  // ---------------------------------------------------------------------------------------
  // verifyEmail

  /** The input `verifyEmail` hands to `create` for a staged signup. */
  function StagedUser(data: RegisterDto): CreateUserInput {
    CreateUserInput(data.email, data.password, data.displayName, Some(VerifiedRoleId))
  }

  /** The email named by a verification token, read with `decode` (no signature or expiry check). */
  function DecodedEmail(s: State, token: Token): (e: Option<string>)
    ensures e.Some? ==> e.value != ""
    ensures e.Some? <==> Decode(s.issued, token).Some? && TruthyString(Decode(s.issued, token).value.email)
    ensures e.Some? ==> e == Decode(s.issued, token).value.email
  {
    var c := Decode(s.issued, token);
    if c.Some? && TruthyString(c.value.email) then c.value.email else None
  }

  /**
   * `verifyEmail`: decode the token, read the staged signup, create the user with role 2 and
   * drop the staged entry. Every failure surfaces as the one generic verification error.
   */
  function VerifyEmail(s: State, env: Env, token: Token): (r: (Result<VerifiedUser, AuthError>, State))
    ensures r.0.Failure? ==> r.0.error == VerificationFailed && r.1 == s
    ensures DecodedEmail(s, token).None? ==> r.0.Failure?
    ensures DecodedEmail(s, token).Some? && DecodedEmail(s, token).value !in s.registrations ==> r.0.Failure?
    ensures r.0.Success? <==>
              && DecodedEmail(s, token).Some?
              && DecodedEmail(s, token).value in s.registrations
              && CreateUser(s.users, env.hashKey, StagedUser(s.registrations[DecodedEmail(s, token).value])).0.Success?
    ensures r.0.Success? ==>
              var u := CreateUser(s.users, env.hashKey, StagedUser(s.registrations[DecodedEmail(s, token).value])).0.value;
              r.0.value == VerifiedUser(u.id, u.email, u.displayName)
    ensures r.0.Success? ==>
              var email := DecodedEmail(s, token).value;
              && email in s.registrations
              && var data := s.registrations[email];
              && CreateUser(s.users, env.hashKey, StagedUser(data)).0.Success?
              && r.1 == s.(users := CreateUser(s.users, env.hashKey, StagedUser(data)).1,
                           registrations := s.registrations - {data.email})
    ensures Inv(s) ==> Inv(r.1)
  {
    var email := DecodedEmail(s, token);
    if email.None? || email.value !in s.registrations then (Failure(VerificationFailed), s)
    else
      var data := s.registrations[email.value];
      var (created, users') := CreateUser(s.users, env.hashKey, StagedUser(data));
      if created.Failure? then (Failure(VerificationFailed), s)
      else
        var u := created.value;
        (Success(VerifiedUser(u.id, u.email, u.displayName)),
         s.(users := users', registrations := s.registrations - {data.email}))
  }

  /** A successful verification stores a local user with role 2 holding the keyed digest of the staged password. */
  lemma VerifyEmailCreatesUser(s: State, env: Env, token: Token)
    requires Inv(s)
    requires VerifyEmail(s, env, token).0.Success?
    ensures var email := DecodedEmail(s, token).value;
            var data := s.registrations[email];
            var s' := VerifyEmail(s, env, token).1;
            && HasKey(env.hashKey)
            && FindUser(s'.users.rows, email).Some?
            && var u := FindUser(s'.users.rows, email).value;
            && u.passwordHash == Some(Hmac(env.hashKey.value, data.password))
            && u.roleId == Some(VerifiedRoleId)
            && u.provider == Local
            && email !in s'.registrations
  {
    var email := DecodedEmail(s, token).value;
    var data := s.registrations[email];
    assert data.email == email;
  }

  // ---------------------------------------------------------------------------------------
  // login

  /**
   * `login`: look the user up, compare the keyed digest of the password with the stored one,
   * sign a refresh token of the chosen tier, upsert the table row for the long tier only,
   * and cache the token under `refresh:<id>`.
   */
  function Login(s: State, env: Env, dto: LoginDto, nowMs: nat): (r: (Result<LoginOk, AuthError>, State))
    ensures r.0.Failure? ==> r.1 == s
    ensures r.0.Failure? ==> r.0.error == InvalidCredentials || r.0.error == ConfigurationError
    ensures FindUser(s.users.rows, dto.email).None? ==> r.0 == Failure(InvalidCredentials)
    ensures r.0 == Failure(ConfigurationError) <==>
              FindUser(s.users.rows, dto.email).Some? && !HasKey(env.hashKey)
    ensures FindUser(s.users.rows, dto.email).Some? && HasKey(env.hashKey) ==>
              (r.0 == Failure(InvalidCredentials) <==>
               FindUser(s.users.rows, dto.email).value.passwordHash != Some(Hmac(env.hashKey.value, dto.password)))
    ensures r.0.Success? ==> LoginEffect(s, env, dto, nowMs, r.0.value, r.1)
    ensures Inv(s) ==> Inv(r.1)
  {
    var found := FindUser(s.users.rows, dto.email);
    if found.None? then (Failure(InvalidCredentials), s)
    else if !HasKey(env.hashKey) then (Failure(ConfigurationError), s)
    else
      var u := found.value;
      if u.passwordHash != Some(Hmac(env.hashKey.value, dto.password)) then (Failure(InvalidCredentials), s)
      else
        var reported := if dto.stayLogin then ThirtyDaysSec else ShortTtl(env);
        var (t, s1) := Sign(s, RefreshClaims(u.id, u.email, dto.stayLogin), Some(reported), nowMs);
        var s2 := if dto.stayLogin then s1.(rows := Upsert(s1.rows, u.id, t, nowMs + ThirtyDaysMs)) else s1;
        var s3 := s2.(refreshCache := s2.refreshCache[u.id := CacheEntry(t, CacheTtl(env))]);
        assert Inv(s) ==> Inv(s3) by {
          if Inv(s) { IssuedGrows(s, [s1.issued[|s.issued|]]); }
        }
        (Success(LoginOk(reported, dto.stayLogin, t)), s3)
  }

  /**
   * What a successful login leaves behind: the reported lifetime of the tier, a fresh token
   * carrying refresh claims for the user that lives exactly that long and verifies now (the
   * codec keeps every earlier record), that token in `refresh:<id>` with
   * the REFRESH_CACHE TTL, and, for the long tier only, the user's table row upserted to hold it,
   * not revoked and expiring in thirty days. Users and staged signups are untouched.
   */
  ghost predicate LoginEffect(s: State, env: Env, dto: LoginDto, nowMs: nat, ok: LoginOk, s': State)
  {
    && FindUser(s.users.rows, dto.email).Some?
    && var u := FindUser(s.users.rows, dto.email).value;
    && ok.refreshTtl == (if dto.stayLogin then ThirtyDaysSec else ShortTtl(env))
    && ok.stayLogin == dto.stayLogin
    && ok.refreshToken == Signed(|s.issued|)
    && s'.issued == s.issued + [SignedRecord(RefreshClaims(u.id, u.email, dto.stayLogin), ExpiryAfter(nowMs, Some(ok.refreshTtl)))]
    && Verify(s'.issued, ok.refreshToken, Seconds(nowMs)) == Valid(RefreshClaims(u.id, u.email, dto.stayLogin))
    && s'.refreshCache == s.refreshCache[u.id := CacheEntry(ok.refreshToken, CacheTtl(env))]
    && s'.users == s.users && s'.registrations == s.registrations
    && (!dto.stayLogin ==> s'.rows == s.rows)
    && (dto.stayLogin ==> s'.rows == Upsert(s.rows, u.id, ok.refreshToken, nowMs + ThirtyDaysMs))
  }

  /** A long-tier login leaves exactly one row for the user, whether or not one existed before. */
  lemma LoginLeavesSingleRow(s: State, env: Env, dto: LoginDto, nowMs: nat)
    requires Inv(s)
    requires dto.stayLogin
    requires Login(s, env, dto, nowMs).0.Success?
    ensures var s' := Login(s, env, dto, nowMs).1;
            var u := FindUser(s.users.rows, dto.email).value;
            && FindRow(s'.rows, u.id).Some?
            && RowsOf(s'.rows, u.id) == {FindRow(s'.rows, u.id).value}
  {
    var s' := Login(s, env, dto, nowMs).1;
    var u := FindUser(s.users.rows, dto.email).value;
    SingleRowPerUser(s'.rows, u.id);
  }

  // ---------------------------------------------------------------------------------------
  // issueAccessToken

  /** The refresh payload's required fields: `type = 'refresh'`, a truthy `email` and `sub`. */
  predicate RefreshShaped(c: Claims) {
    c.typ == Some("refresh") && TruthyString(c.email) && TruthyInt(c.sub)
  }

  /**
   * The checks common to both tiers: the token is present and verifies, has the refresh shape,
   * and the user found by its email has the id in `sub`. Yields the claims and the user.
   */
  function CheckRefresh(s: State, t: Option<Token>, nowMs: nat): (r: Result<(Claims, User), AuthError>)
    ensures r.Failure? ==> r.error == InvalidToken || r.error == TokenExpired
    ensures (r.Failure? && r.error == TokenExpired) <==>
              Present(t) && Verify(s.issued, t.value, Seconds(nowMs)).Expired?
    ensures r.Success? <==>
              && Present(t)
              && Verify(s.issued, t.value, Seconds(nowMs)).Valid?
              && RefreshShaped(Verify(s.issued, t.value, Seconds(nowMs)).claims)
              && var c := Verify(s.issued, t.value, Seconds(nowMs)).claims;
              && FindUser(s.users.rows, c.email.value).Some?
              && FindUser(s.users.rows, c.email.value).value.id == c.sub.value
    ensures r.Success? ==>
              && r.value.0 == Verify(s.issued, t.value, Seconds(nowMs)).claims
              && r.value.1 == FindUser(s.users.rows, r.value.0.email.value).value
  {
    if !Present(t) then Failure(InvalidToken)
    else match Verify(s.issued, t.value, Seconds(nowMs))
      case Expired => Failure(TokenExpired)
      case Malformed => Failure(InvalidToken)
      case Valid(c) =>
        if !RefreshShaped(c) then Failure(InvalidToken)
        else
          var u := FindUser(s.users.rows, c.email.value);
          if u.None? || u.value.id != c.sub.value then Failure(InvalidToken)
          else Success((c, u.value))
  }

  /** The long tier's fallback: the user's row exists, is not revoked, holds the token and has not expired. */
  predicate RowValid(rows: seq<RefreshRow>, uid: int, t: Token, nowMs: nat) {
    && FindRow(rows, uid).Some?
    && var row := rows[FindRow(rows, uid).value];
    && !row.isRevoked && row.token == t && row.expiresAt > nowMs
  }

  /**
   * The tier decision table: a short session is accepted only by a cache entry equal to the
   * token; a long session by a cache entry equal to the token, or, with no cache entry, by a
   * valid table row.
   */
  predicate StoredSessionAccepts(s: State, stayLogin: bool, uid: int, t: Token, nowMs: nat) {
    if !stayLogin then uid in s.refreshCache && s.refreshCache[uid].token == t
    else if uid in s.refreshCache then s.refreshCache[uid].token == t
    else RowValid(s.rows, uid, t, nowMs)
  }

  /**
   * `issueAccessToken`: validate the presented refresh token, then rotate it: sign a new refresh
   * token of the same tier, store it where the old one was, and sign an access token.
   */
  function IssueAccessToken(s: State, env: Env, t: Option<Token>, nowMs: nat)
    : (r: (Result<Rotated, AuthError>, State))
    ensures r.0.Failure? ==> r.1 == s
    ensures r.0.Failure? ==> r.0.error == InvalidToken || r.0.error == TokenExpired
    ensures (r.0.Failure? && r.0.error == TokenExpired) <==>
              Present(t) && Verify(s.issued, t.value, Seconds(nowMs)).Expired?
    ensures r.0.Success? <==>
              && CheckRefresh(s, t, nowMs).Success?
              && var (c, u) := CheckRefresh(s, t, nowMs).value;
              && StoredSessionAccepts(s, c.stayLogin == Some(true), u.id, t.value, nowMs)
    ensures r.0.Success? ==> RotationEffect(s, env, t.value, nowMs, r.0.value, r.1)
    ensures Inv(s) ==> Inv(r.1)
  {
    match CheckRefresh(s, t, nowMs)
    case Failure(e) => (Failure(e), s)
    case Success((c, u)) =>
      var r := if c.stayLogin != Some(true) then RotateShort(s, env, u, t.value, nowMs)
               else RotateLong(s, env, u, t.value, nowMs);
      assert Inv(s) ==> Inv(r.1) by {
        if Inv(s) && r.0.Success? {
          IssuedGrows(s, r.1.issued[|s.issued|..]);
          assert s.issued + r.1.issued[|s.issued|..] == r.1.issued;
        }
      }
      r
  }

  /** Short tier: the cache entry must equal the token; rotate into the cache with the short TTL. */
  function RotateShort(s: State, env: Env, u: User, tok: Token, nowMs: nat): (Result<Rotated, AuthError>, State) {
    if !(u.id in s.refreshCache && s.refreshCache[u.id].token == tok) then (Failure(InvalidToken), s)
    else
      var (nr, s1) := Sign(s, RefreshClaims(u.id, u.email, false), Some(ShortTtl(env)), nowMs);
      var s2 := s1.(refreshCache := s1.refreshCache[u.id := CacheEntry(nr, ShortTtl(env))]);
      var (at, s3) := Sign(s2, AccessClaims(u.id, u.email), Some(AccessTtl(env)), nowMs);
      (Success(Rotated(at, nr, AccessTtl(env), ShortTtl(env), None)), s3)
  }

  /**
   * Long tier: a differing cache entry fails; without one the table row must be valid. Rotate
   * into the cache for one hour and into the table row for thirty days.
   */
  function RotateLong(s: State, env: Env, u: User, tok: Token, nowMs: nat): (Result<Rotated, AuthError>, State) {
    if u.id in s.refreshCache && s.refreshCache[u.id].token != tok then (Failure(InvalidToken), s)
    else if u.id !in s.refreshCache && !RowValid(s.rows, u.id, tok, nowMs) then (Failure(InvalidToken), s)
    else CommitLong(s, env, u, nowMs)
  }

  /** The writes of an accepted long-tier rotation. */
  function CommitLong(s: State, env: Env, u: User, nowMs: nat): (Result<Rotated, AuthError>, State) {
    var (nr, s1) := Sign(s, RefreshClaims(u.id, u.email, true), Some(ThirtyDaysSec), nowMs);
    var s2 := s1.(refreshCache := s1.refreshCache[u.id := CacheEntry(nr, OneHourSec)]);
    var s3 := s2.(rows := Upsert(s2.rows, u.id, nr, nowMs + ThirtyDaysMs));
    var (at, s4) := Sign(s3, AccessClaims(u.id, u.email), Some(AccessTtl(env)), nowMs);
    (Success(Rotated(at, nr, AccessTtl(env), ThirtyDaysSec, Some(OneHourSec))), s4)
  }

  /**
   * What a successful rotation leaves behind, for the user `u` named by the token: a fresh refresh
   * token of the same tier in `refresh:<id>` (short tier: with the short TTL and no table write;
   * long tier: with a one-hour TTL and the single table row holding it, not revoked, expiring in
   * thirty days), and an access token for the same user that verifies now. Both tokens live
   * exactly the lifetimes the reply reports, and the codec keeps every earlier record.
   */
  ghost predicate RotationEffect(s: State, env: Env, t: Token, nowMs: nat, ok: Rotated, s': State)
  {
    && CheckRefresh(s, Some(t), nowMs).Success?
    && var (c, u) := CheckRefresh(s, Some(t), nowMs).value;
    && var long := c.stayLogin == Some(true);
    && ok.refreshToken == Signed(|s.issued|) && ok.refreshToken != t
    && ok.accessToken == Signed(|s.issued| + 1)
    && s'.issued == s.issued + [SignedRecord(RefreshClaims(u.id, u.email, long), ExpiryAfter(nowMs, Some(if long then ThirtyDaysSec else ShortTtl(env)))),
                                SignedRecord(AccessClaims(u.id, u.email), ExpiryAfter(nowMs, Some(AccessTtl(env))))]
    && Verify(s'.issued, ok.refreshToken, Seconds(nowMs)) == Valid(RefreshClaims(u.id, u.email, long))
    && Verify(s'.issued, ok.accessToken, Seconds(nowMs)) == Valid(AccessClaims(u.id, u.email))
    && ok.accessTtl == AccessTtl(env)
    && s'.users == s.users && s'.registrations == s.registrations
    && (!long ==>
          && s'.refreshCache == s.refreshCache[u.id := CacheEntry(ok.refreshToken, ShortTtl(env))]
          && s'.rows == s.rows
          && ok.refreshTtl == ShortTtl(env) && ok.refreshCacheTtl == None)
    && (long ==>
          && s'.refreshCache == s.refreshCache[u.id := CacheEntry(ok.refreshToken, OneHourSec)]
          && s'.rows == Upsert(s.rows, u.id, ok.refreshToken, nowMs + ThirtyDaysMs)
          && ok.refreshTtl == ThirtyDaysSec && ok.refreshCacheTtl == Some(OneHourSec))
  }

  // ---------------------------------------------------------------------------------------
  // logout

  /**
   * `logout`: best effort and never failing. Without a token, or with one that does not verify
   * or has no truthy `sub`, nothing changes. Otherwise `refresh:<sub>` is deleted (unless the
   * cache delete fails, `cacheDelFails`, which is swallowed) and, for a long session, the
   * user's row is revoked and expires now.
   */
  function Logout(s: State, t: Option<Token>, nowMs: nat, cacheDelFails: bool): (r: (LogoutReply, State))
    ensures r.0 == LogoutSuccess <==> !Present(t)
    ensures !(Present(t) && Verify(s.issued, t.value, Seconds(nowMs)).Valid?) ==> r.1 == s
    ensures r.1.users == s.users && r.1.registrations == s.registrations && r.1.issued == s.issued
    ensures |r.1.rows| == |s.rows|
    ensures Present(t) && Verify(s.issued, t.value, Seconds(nowMs)).Valid? ==>
              var c := Verify(s.issued, t.value, Seconds(nowMs)).claims;
              && (!TruthyInt(c.sub) ==> r.1 == s)
              && (TruthyInt(c.sub) ==>
                    && r.1.refreshCache == (if cacheDelFails then s.refreshCache else s.refreshCache - {c.sub.value})
                    && r.1.rows == (if c.stayLogin == Some(true) then Revoke(s.rows, c.sub.value, nowMs) else s.rows))
    ensures Inv(s) ==> Inv(r.1)
  {
    if !Present(t) then (LogoutSuccess, s)
    else match Verify(s.issued, t.value, Seconds(nowMs))
      case Valid(c) =>
        if !TruthyInt(c.sub) then (LoggedOut, s)
        else
          var uid := c.sub.value;
          var s1 := if cacheDelFails then s else s.(refreshCache := s.refreshCache - {uid});
          var s2 := if c.stayLogin == Some(true) then s1.(rows := Revoke(s1.rows, uid, nowMs)) else s1;
          assert Inv(s) ==> UniqueUserIds(s2.rows) by {
            if Inv(s) && c.stayLogin == Some(true) {
              forall i, j | 0 <= i < j < |s2.rows| ensures s2.rows[i].userId != s2.rows[j].userId {
                assert s2.rows[i].userId == s.rows[i].userId && s2.rows[j].userId == s.rows[j].userId;
              }
            }
          }
          (LoggedOut, s2)
      case _ => (LoggedOut, s)
  }

  // ---------------------------------------------------------------------------------------
  // Cache expiry

  /** Redis dropping `registration:<email>` when its TTL runs out. */
  function EvictRegistration(s: State, email: string): (s': State)
    ensures email !in s'.registrations
    ensures s'.registrations == s.registrations - {email} && s'.issued == s.issued
    ensures s'.users == s.users && s'.refreshCache == s.refreshCache && s'.rows == s.rows
    ensures Inv(s) ==> Inv(s')
  {
    s.(registrations := s.registrations - {email})
  }

  /** Redis dropping `refresh:<uid>` when its TTL runs out. */
  function EvictRefresh(s: State, uid: int): (s': State)
    ensures uid !in s'.refreshCache
    ensures s'.refreshCache == s.refreshCache - {uid} && s'.issued == s.issued
    ensures s'.users == s.users && s'.registrations == s.registrations && s'.rows == s.rows
    ensures Inv(s) ==> Inv(s')
  {
    s.(refreshCache := s.refreshCache - {uid})
  }
}
