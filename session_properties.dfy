/**
 * Properties of the session engine that relate several operations: single-use verification
 * links, credentials staged at signup being accepted at login, a fresh login token being
 * rotatable, the presented token dying with each rotation, and logout ending the session.
 */
module SessionProperties {
  import opened Wrappers
  import opened Jwt
  import opened Users
  import opened RefreshRows
  import opened Session
  import opened AccessGuard

  /** An email that already has a user is refused before the mailer's outcome can matter. */
  lemma RegisterTakenEmailIgnoresMailer(s: State, env: Env, dto: RegisterDto, nowMs: nat)
    requires FindUser(s.users.rows, dto.email).Some?
    ensures Register(s, env, dto, true, nowMs) == Register(s, env, dto, false, nowMs) == (Failure(EmailInUse), s)
  {
  }

  /** A verification link works once: the staged signup is gone after the first success. */
  lemma VerifyEmailIsSingleUse(s: State, env: Env, token: Token)
    requires Inv(s)
    requires VerifyEmail(s, env, token).0.Success?
    ensures var s' := VerifyEmail(s, env, token).1;
            VerifyEmail(s', env, token) == (Failure(VerificationFailed), s')
  {
    var s' := VerifyEmail(s, env, token).1;
    var email := DecodedEmail(s, token).value;
    assert s.registrations[email].email == email;
    assert DecodedEmail(s', token) == DecodedEmail(s, token);
  }

  /** The password staged by `register` is accepted by `login` once the email is verified. */
  lemma VerifiedCredentialsLogIn(s: State, env: Env, token: Token, stayLogin: bool, nowMs: nat)
    requires Inv(s)
    requires VerifyEmail(s, env, token).0.Success?
    ensures var data := s.registrations[DecodedEmail(s, token).value];
            var s' := VerifyEmail(s, env, token).1;
            Login(s', env, LoginDto(data.email, data.password, stayLogin), nowMs).0.Success?
  {
    VerifyEmailCreatesUser(s, env, token);
    var email := DecodedEmail(s, token).value;
    assert s.registrations[email].email == email;
  }

  /** A freshly issued refresh token is accepted by `issueAccessToken` at once, in either tier. */
  lemma LoginTokenRotates(s: State, env: Env, dto: LoginDto, nowMs: nat)
    requires Inv(s)
    requires dto.email != ""
    requires Login(s, env, dto, nowMs).0.Success?
    ensures var (r, s') := Login(s, env, dto, nowMs);
            var u := FindUser(s.users.rows, dto.email).value;
            var (r2, s2) := IssueAccessToken(s', env, Some(r.value.refreshToken), nowMs);
            && r2.Success?
            && Verify(s2.issued, r2.value.accessToken, Seconds(nowMs)) == Valid(AccessClaims(u.id, u.email))
  {
    var (r, s') := Login(s, env, dto, nowMs);
    var u := FindUser(s.users.rows, dto.email).value;
    assert u in s.users.rows;
    FindUserUnique(s.users.rows, u);
    assert CheckRefresh(s', Some(r.value.refreshToken), nowMs) == Success((RefreshClaims(u.id, u.email, dto.stayLogin), u));
  }

  /**
   * Rotation is single use: once a token has been rotated, presenting it again fails, also after
   * the cache entry of any user has expired. While the token itself has not expired the failure
   * is InvalidToken.
   */
  lemma RotatedTokenIsRejected(s: State, env: Env, t: Token, nowMs: nat, evict: Option<int>, laterMs: nat)
    requires IssueAccessToken(s, env, Some(t), nowMs).0.Success?
    ensures var s' := IssueAccessToken(s, env, Some(t), nowMs).1;
            var s'' := if evict.Some? then EvictRefresh(s', evict.value) else s';
            var r := IssueAccessToken(s'', env, Some(t), laterMs).0;
            && r.Failure?
            && (Verify(s.issued, t, Seconds(laterMs)).Valid? ==> r.error == InvalidToken)
  {
    var (ok, s') := IssueAccessToken(s, env, Some(t), nowMs);
    var s'' := if evict.Some? then EvictRefresh(s', evict.value) else s';
    var (c, u) := CheckRefresh(s, Some(t), nowMs).value;
    assert s''.issued == s.issued + s''.issued[|s.issued|..];
    VerifyStableUnderSigning(s.issued, s''.issued[|s.issued|..], t, Seconds(laterMs));
    if CheckRefresh(s'', Some(t), laterMs).Success? {
      assert CheckRefresh(s'', Some(t), laterMs).value == (c, u);
      var long := c.stayLogin == Some(true);
      if long && u.id !in s''.refreshCache {
        assert s''.rows == Upsert(s.rows, u.id, ok.value.refreshToken, nowMs + ThirtyDaysMs);
      }
      assert !StoredSessionAccepts(s'', long, u.id, t, laterMs);
    }
  }

  /** The rotated-in token is itself accepted at once: rotation can go on indefinitely. */
  lemma RotatedInTokenRotates(s: State, env: Env, t: Token, nowMs: nat)
    requires Inv(s)
    requires IssueAccessToken(s, env, Some(t), nowMs).0.Success?
    ensures var (ok, s') := IssueAccessToken(s, env, Some(t), nowMs);
            IssueAccessToken(s', env, Some(ok.value.refreshToken), nowMs).0.Success?
  {
    var (ok, s') := IssueAccessToken(s, env, Some(t), nowMs);
    var (c, u) := CheckRefresh(s, Some(t), nowMs).value;
    var long := c.stayLogin == Some(true);
    assert CheckRefresh(s', Some(ok.value.refreshToken), nowMs) == Success((RefreshClaims(u.id, u.email, long), u));
  }

  /** FindRow looks only at the user ids of the rows. */
  lemma {:induction false} FindRowSeesOnlyIds(rows: seq<RefreshRow>, rows': seq<RefreshRow>, uid: int)
    requires |rows| == |rows'|
    requires forall i :: 0 <= i < |rows| ==> rows[i].userId == rows'[i].userId
    ensures FindRow(rows, uid) == FindRow(rows', uid)
  {
    if |rows| > 0 {
      FindRowSeesOnlyIds(rows[1..], rows'[1..], uid);
    }
  }

  /**
   * Logout ends the session of a token that verifies: when the cache delete goes through,
   * the same token can no longer be rotated, at any later time and in either tier.
   */
  lemma LogoutEndsSession(s: State, env: Env, t: Token, nowMs: nat, laterMs: nat)
    requires Verify(s.issued, t, Seconds(nowMs)).Valid?
    ensures var s' := Logout(s, Some(t), nowMs, false).1;
            IssueAccessToken(s', env, Some(t), laterMs).0.Failure?
  {
    var s' := Logout(s, Some(t), nowMs, false).1;
    var c := Verify(s.issued, t, Seconds(nowMs)).claims;
    if CheckRefresh(s', Some(t), laterMs).Success? {
      var uid := c.sub.value;
      assert uid !in s'.refreshCache;
      if c.stayLogin == Some(true) {
        FindRowSeesOnlyIds(s.rows, s'.rows, uid);
        assert !RowValid(s'.rows, uid, t, laterMs);
      }
    }
  }

  /**
   * The walk-through of a whole account: register, verify the link, log in with a short
   * session, rotate the token R1 into R2; R1 is then refused and R2 accepted.
   */
  lemma SignupToRotation(s0: State, env: Env, dto: RegisterDto, nowMs: nat)
    requires Inv(s0)
    requires dto.email != ""
    requires HasKey(env.hashKey)
    requires FindUser(s0.users.rows, dto.email).None?
    ensures var (reg, s1) := Register(s0, env, dto, true, nowMs);
            && reg.Success?
            && var (ver, s2) := VerifyEmail(s1, env, reg.value.activeToken);
            && ver.Success?
            && var (login, s3) := Login(s2, env, LoginDto(dto.email, dto.password, false), nowMs);
            && login.Success?
            && s3.rows == s0.rows
            && var r1 := login.value.refreshToken;
            && var (rot, s4) := IssueAccessToken(s3, env, Some(r1), nowMs);
            && rot.Success?
            && IssueAccessToken(s4, env, Some(r1), nowMs).0 == Failure(InvalidToken)
            && IssueAccessToken(s4, env, Some(rot.value.refreshToken), nowMs).0.Success?
  {
    var (reg, s1) := Register(s0, env, dto, true, nowMs);
    assert DecodedEmail(s1, reg.value.activeToken) == Some(dto.email);
    var (ver, s2) := VerifyEmail(s1, env, reg.value.activeToken);
    VerifiedCredentialsLogIn(s1, env, reg.value.activeToken, false, nowMs);
    var ldto := LoginDto(dto.email, dto.password, false);
    var (login, s3) := Login(s2, env, ldto, nowMs);
    LoginTokenRotates(s2, env, ldto, nowMs);
    var r1 := login.value.refreshToken;
    var (rot, s4) := IssueAccessToken(s3, env, Some(r1), nowMs);
    RotatedTokenIsRejected(s3, env, r1, nowMs, None, nowMs);
    RotatedInTokenRotates(s3, env, r1, nowMs);
  }

  /** The refresh token a login hands out never opens a route behind the access guard. */
  lemma LoginTokenRefusedByGuard(s: State, env: Env, dto: LoginDto, nowMs: nat, laterMs: nat)
    requires Login(s, env, dto, nowMs).0.Success?
    ensures var (r, s') := Login(s, env, dto, nowMs);
            Authorize(s'.issued, Some(r.value.refreshToken), laterMs) == Failure(InvalidOrExpiredAccessToken)
  {
    var (r, s') := Login(s, env, dto, nowMs);
    assert s'.issued[|s.issued|].claims.typ == Some("refresh");
  }

  /** The access token of a rotation opens the guard at once, for the user the refresh token named. */
  lemma RotationAccessTokenAdmitted(s: State, env: Env, t: Token, nowMs: nat)
    requires IssueAccessToken(s, env, Some(t), nowMs).0.Success?
    ensures var (ok, s') := IssueAccessToken(s, env, Some(t), nowMs);
            var u := CheckRefresh(s, Some(t), nowMs).value.1;
            Authorize(s'.issued, Some(ok.value.accessToken), nowMs) == Success(RequestUser(u.id, Some(u.email)))
  {
  }
}
