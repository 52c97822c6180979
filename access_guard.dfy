/**
 * `JwtAccessGuard` (src/auth/guards/jwt-access.guard.ts): admits a request only when its
 * `access_token` cookie verifies and carries `type = 'access'` and a truthy `sub`, and then
 * attaches `{ id: sub, email }` to the request as its user.
 */
module AccessGuard {
  import opened Wrappers
  import opened Jwt

  datatype GuardError =
    | MissingAccessToken            // 'Missing access token'
    | InvalidOrExpiredAccessToken   // 'Invalid or expired access token'

  /** The `req.user` the guard attaches. */
  datatype RequestUser = RequestUser(id: int, email: Option<string>)

  predicate AccessShaped(c: Claims) {
    c.typ == Some("access") && TruthyInt(c.sub)
  }

  /**
   * The guard's decision. A missing cookie is its own error; every failure after that, the
   * explicit type/sub rejection included, is caught and rethrown as the one generic error.
   */
  function Authorize(issued: seq<SignedRecord>, cookie: Option<Token>, nowMs: nat): (r: Result<RequestUser, GuardError>)
    ensures r == Failure(MissingAccessToken) <==> !Present(cookie)
    ensures Present(cookie) && r.Failure? ==> r.error == InvalidOrExpiredAccessToken
    ensures r.Success? <==>
              && Present(cookie)
              && Verify(issued, cookie.value, Seconds(nowMs)).Valid?
              && AccessShaped(Verify(issued, cookie.value, Seconds(nowMs)).claims)
    ensures r.Success? ==>
              var c := Verify(issued, cookie.value, Seconds(nowMs)).claims;
              r.value == RequestUser(c.sub.value, c.email)
  {
    if !Present(cookie) then Failure(MissingAccessToken)
    else
      var v := Verify(issued, cookie.value, Seconds(nowMs));
      if v.Valid? && AccessShaped(v.claims) then Success(RequestUser(v.claims.sub.value, v.claims.email))
      else Failure(InvalidOrExpiredAccessToken)
  }

  /** A verified token of any other type, a refresh token in particular, never passes the guard. */
  lemma OtherTypesRefused(issued: seq<SignedRecord>, t: Token, nowMs: nat)
    requires Verify(issued, t, Seconds(nowMs)).Valid?
    requires Verify(issued, t, Seconds(nowMs)).claims.typ != Some("access")
    ensures Authorize(issued, Some(t), nowMs) == Failure(InvalidOrExpiredAccessToken)
  {
  }

  class JwtAccessGuard {
    const jwt: JwtService

    constructor (jwt: JwtService)
      ensures this.jwt == jwt
    {
      this.jwt := jwt;
    }

    /** `canActivate`: `Success(user)` stands for returning true with `req.user` set to `user`. */
    method CanActivate(cookie: Option<Token>, nowMs: nat) returns (r: Result<RequestUser, GuardError>)
      ensures r == Authorize(jwt.issued, cookie, nowMs)
    {
      if !Present(cookie) {
        return Failure(MissingAccessToken);
      }
      var payload := Verify(jwt.issued, cookie.value, Seconds(nowMs));
      if !payload.Valid? || payload.claims.typ != Some("access") || !TruthyInt(payload.claims.sub) {
        return Failure(InvalidOrExpiredAccessToken);
      }
      r := Success(RequestUser(payload.claims.sub.value, payload.claims.email));
    }
  }
}
