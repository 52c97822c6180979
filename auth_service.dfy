/**
 * `AuthService` (src/auth/auth.service.ts) as a class over its stores: the Redis cache's two key
 * families and the `refresh_tokens` table are its fields; the user table lives in `UsersService`
 * and the table of signed tokens in `JwtService`. Each method is proved to have exactly the
 * effect of the matching function of the `Session` module and to keep the store invariant.
 */
module AuthServiceImpl {
  import opened Wrappers
  import opened Jwt
  import opened Users
  import opened RefreshRows
  import opened Session

  class AuthService {
    const users: UsersService
    const jwt: JwtService
    const env: Env
    var registrations: map<string, RegisterDto>
    var refreshCache: map<int, CacheEntry>
    var rows: seq<RefreshRow>

    /** The stores as one value. */
    function Abs(): State
      reads this, users, jwt
    {
      State(users.Table(), jwt.issued, registrations, refreshCache, rows)
    }

    ghost predicate Valid()
      reads this, users, jwt
    {
      Inv(Abs()) && users.hashKey == env.hashKey
    }

    constructor (users: UsersService, jwt: JwtService, env: Env)
      requires users.Valid() && users.hashKey == env.hashKey
      ensures Valid()
      ensures Abs() == State(users.Table(), jwt.issued, map[], map[], [])
    {
      this.users := users;
      this.jwt := jwt;
      this.env := env;
      registrations := map[];
      refreshCache := map[];
      rows := [];
    }

    /** `findOne({ where: { userId } })` on the refresh-token table. */
    method FindRowIndex(uid: int) returns (r: Option<nat>)
      ensures r == FindRow(rows, uid)
      ensures r.Some? ==> r.value < |rows| && rows[r.value].userId == uid
    {
      var i := 0;
      while i < |rows|
        invariant 0 <= i <= |rows|
        invariant forall k :: 0 <= k < i ==> rows[k].userId != uid
      {
        if rows[i].userId == uid {
          return Some(i);
        }
        i := i + 1;
      }
      r := None;
    }

    /** Update the user's row in place, or insert one, with a new token, expiry and `isRevoked = false`. */
    method UpsertRow(uid: int, token: Token, expiresAt: int)
      modifies this`rows
      ensures rows == Upsert(old(rows), uid, token, expiresAt)
    {
      var existing := FindRowIndex(uid);
      if existing.Some? {
        rows := rows[existing.value := RefreshRow(uid, token, expiresAt, false)];
      } else {
        rows := rows + [RefreshRow(uid, token, expiresAt, false)];
      }
    }

    /** `register`. */
    method Register(dto: RegisterDto, mailOk: bool, nowMs: nat) returns (r: Result<RegisterOk, AuthError>)
      requires Valid()
      modifies this, jwt
      ensures Valid()
      ensures (r, Abs()) == Session.Register(old(Abs()), env, dto, mailOk, nowMs)
    {
      var existed := users.FindByEmail(dto.email);
      if existed.Some? {
        return Failure(EmailInUse);
      }
      var activeToken := jwt.Sign(VerificationClaims(dto.email, nowMs), env.jwtDefaultTtl, nowMs);
      if !mailOk {
        return Failure(EmailDeliveryFailed);
      }
      registrations := registrations[dto.email := dto];
      r := Success(RegisterOk(dto.email, activeToken));
    }

    /** `verifyEmail`. */
    method VerifyEmail(token: Token) returns (r: Result<VerifiedUser, AuthError>)
      requires Valid()
      modifies this, users
      ensures Valid()
      ensures (r, Abs()) == Session.VerifyEmail(old(Abs()), env, token)
    {
      var decoded := Decode(jwt.issued, token);
      if decoded.None? || !TruthyString(decoded.value.email) {
        return Failure(VerificationFailed);
      }
      var email := decoded.value.email.value;
      if email !in registrations {
        return Failure(VerificationFailed);
      }
      var data := registrations[email];
      var created := users.Create(StagedUser(data));
      if created.Failure? {
        return Failure(VerificationFailed);
      }
      registrations := registrations - {data.email};
      var u := created.value;
      r := Success(VerifiedUser(u.id, u.email, u.displayName));
    }

    /** `login`. */
    method Login(dto: LoginDto, nowMs: nat) returns (r: Result<LoginOk, AuthError>)
      requires Valid()
      modifies this, jwt
      ensures Valid()
      ensures (r, Abs()) == Session.Login(old(Abs()), env, dto, nowMs)
    {
      var user := users.FindByEmail(dto.email);
      if user.None? {
        return Failure(InvalidCredentials);
      }
      if !HasKey(env.hashKey) {
        return Failure(ConfigurationError);
      }
      var passwordHash := Hmac(env.hashKey.value, dto.password);
      var u := user.value;
      if u.passwordHash != Some(passwordHash) {
        return Failure(InvalidCredentials);
      }
      var refreshShortTtl := ShortTtl(env);
      var reportedTtl := if dto.stayLogin then ThirtyDaysSec else refreshShortTtl;
      var refreshToken := jwt.Sign(RefreshClaims(u.id, u.email, dto.stayLogin), Some(reportedTtl), nowMs);
      if dto.stayLogin {
        UpsertRow(u.id, refreshToken, nowMs + ThirtyDaysMs);
      }
      refreshCache := refreshCache[u.id := CacheEntry(refreshToken, CacheTtl(env))];
      r := Success(LoginOk(reportedTtl, dto.stayLogin, refreshToken));
    }

    /** `issueAccessToken`. */
    method IssueAccessToken(refreshToken: Option<Token>, nowMs: nat) returns (r: Result<Rotated, AuthError>)
      requires Valid()
      modifies this, jwt
      ensures Valid()
      ensures (r, Abs()) == Session.IssueAccessToken(old(Abs()), env, refreshToken, nowMs)
    {
      var checked := ValidateRefresh(refreshToken, nowMs);
      if checked.Failure? {
        return Failure(checked.error);
      }
      var (c, u) := checked.value;
      if c.stayLogin != Some(true) {
        r := RotateShortTier(u, refreshToken.value, nowMs);
      } else {
        r := RotateLongTier(u, refreshToken.value, nowMs);
      }
    }

    /** The checks `issueAccessToken` makes before it looks at the stored session; nothing is written. */
    method ValidateRefresh(refreshToken: Option<Token>, nowMs: nat) returns (r: Result<(Claims, User), AuthError>)
      ensures r == CheckRefresh(Abs(), refreshToken, nowMs)
    {
      if !Present(refreshToken) {
        return Failure(InvalidToken);
      }
      var presented := refreshToken.value;
      var payload := Verify(jwt.issued, presented, Seconds(nowMs));
      if payload.Expired? {
        return Failure(TokenExpired);
      }
      if payload.Malformed? {
        return Failure(InvalidToken);
      }
      var c := payload.claims;
      if !RefreshShaped(c) {
        return Failure(InvalidToken);
      }
      var user := users.FindByEmail(c.email.value);
      if user.None? || user.value.id != c.sub.value {
        return Failure(InvalidToken);
      }
      r := Success((c, user.value));
    }

    /** The short tier of `issueAccessToken`: the cache is the only authority. */
    method RotateShortTier(u: User, presented: Token, nowMs: nat) returns (r: Result<Rotated, AuthError>)
      modifies this`refreshCache, jwt
      ensures (r, Abs()) == RotateShort(old(Abs()), env, u, presented, nowMs)
    {
      var accessTtl := AccessTtl(env);
      var refreshShortTtl := ShortTtl(env);
      var cached := if u.id in refreshCache then Some(refreshCache[u.id].token) else None;
      if cached.None? || cached.value != presented {
        return Failure(InvalidToken);
      }
      var newRefresh := jwt.Sign(RefreshClaims(u.id, u.email, false), Some(refreshShortTtl), nowMs);
      refreshCache := refreshCache[u.id := CacheEntry(newRefresh, refreshShortTtl)];
      var accessToken := jwt.Sign(AccessClaims(u.id, u.email), Some(accessTtl), nowMs);
      r := Success(Rotated(accessToken, newRefresh, accessTtl, refreshShortTtl, None));
    }

    /** The long tier of `issueAccessToken`: the cache first, the table when the cache has no entry. */
    method RotateLongTier(u: User, presented: Token, nowMs: nat) returns (r: Result<Rotated, AuthError>)
      modifies this`refreshCache, this`rows, jwt
      ensures (r, Abs()) == RotateLong(old(Abs()), env, u, presented, nowMs)
    {
      var cached := if u.id in refreshCache then Some(refreshCache[u.id].token) else None;
      if cached.Some? && cached.value != presented {
        return Failure(InvalidToken);
      }
      if cached.None? {
        var record := FindRowIndex(u.id);
        var validInDb := record.Some? && !rows[record.value].isRevoked
                         && rows[record.value].token == presented && rows[record.value].expiresAt > nowMs;
        if !validInDb {
          return Failure(InvalidToken);
        }
      }
      r := CommitLongTier(u, nowMs);
    }

    /** The writes of an accepted long-tier rotation: cache for one hour, table row for thirty days. */
    method CommitLongTier(u: User, nowMs: nat) returns (r: Result<Rotated, AuthError>)
      modifies this`refreshCache, this`rows, jwt
      ensures (r, Abs()) == CommitLong(old(Abs()), env, u, nowMs)
    {
      var accessTtl := AccessTtl(env);
      var newRefresh := jwt.Sign(RefreshClaims(u.id, u.email, true), Some(ThirtyDaysSec), nowMs);
      refreshCache := refreshCache[u.id := CacheEntry(newRefresh, OneHourSec)];
      UpsertRow(u.id, newRefresh, nowMs + ThirtyDaysMs);
      var accessToken := jwt.Sign(AccessClaims(u.id, u.email), Some(accessTtl), nowMs);
      r := Success(Rotated(accessToken, newRefresh, accessTtl, ThirtyDaysSec, Some(OneHourSec)));
    }

    /** `logout`; `cacheDelFails` is the outcome of the cache delete, whose error is swallowed. */
    method Logout(refreshToken: Option<Token>, nowMs: nat, cacheDelFails: bool) returns (reply: LogoutReply)
      requires Valid()
      modifies this`refreshCache, this`rows
      ensures Valid()
      ensures (reply, Abs()) == Session.Logout(old(Abs()), refreshToken, nowMs, cacheDelFails)
    {
      if !Present(refreshToken) {
        return LogoutSuccess;
      }
      var userId: Option<int> := None;
      var stayLogin: Option<bool> := None;
      var p := Verify(jwt.issued, refreshToken.value, Seconds(nowMs));
      if p.Valid? {
        if TruthyInt(p.claims.sub) {
          userId := p.claims.sub;
        }
        stayLogin := p.claims.stayLogin;
      }
      if userId.Some? {
        if !cacheDelFails {
          refreshCache := refreshCache - {userId.value};
        }
        if stayLogin == Some(true) {
          var record := FindRowIndex(userId.value);
          if record.Some? {
            rows := rows[record.value := rows[record.value].(isRevoked := true, expiresAt := nowMs)];
          }
        }
      }
      reply := LoggedOut;
    }

    /** Redis expiring `registration:<email>`. */
    method ExpireRegistration(email: string)
      requires Valid()
      modifies this`registrations
      ensures Valid()
      ensures Abs() == EvictRegistration(old(Abs()), email)
    {
      registrations := registrations - {email};
    }

    /** Redis expiring `refresh:<uid>`. */
    method ExpireRefresh(uid: int)
      requires Valid()
      modifies this`refreshCache
      ensures Valid()
      ensures Abs() == EvictRefresh(old(Abs()), uid)
    {
      refreshCache := refreshCache - {uid};
    }
  }
}
