/**
 * The token codec (`JwtService` from @nestjs/jwt) as an abstract table.
 *
 * Signing records the claims and the expiry in the table `issued` and hands out a token
 * naming its position there, so every newly signed token differs from every token signed
 * before it. A token the codec did not sign either still carries readable claims with a
 * signature that does not check (`Unverifiable`) or is not a token at all (`Garbage`).
 */
module Jwt {
  import opened Wrappers

  /** The claims of a payload; every field may be absent, as in a decoded JSON object. */
  datatype Claims = Claims(
    typ: Option<string>,        // the `type` claim
    sub: Option<int>,
    email: Option<string>,
    stayLogin: Option<bool>,    // the `stay_login` claim
    tier: Option<string>,
    timestamp: Option<int>)

  datatype Token =
    | Signed(serial: nat)
    | Unverifiable(claims: Claims)
    | Garbage(text: string)

  /** What the codec recorded when it signed a token: the payload and the `exp` claim in seconds. */
  datatype SignedRecord = SignedRecord(claims: Claims, exp: Option<int>)

  datatype Verified = Valid(claims: Claims) | Expired | Malformed

  /** JavaScript truthiness of an optional token: absent and the empty string are falsy. */
  predicate Present(t: Option<Token>) {
    t.Some? && t.value != Garbage("")
  }

  /** Truthiness of a numeric claim (`!payload.sub` rejects absent and 0). */
  predicate TruthyInt(v: Option<int>) { v.Some? && v.value != 0 }

  /** Truthiness of a string claim (`!payload.email` rejects absent and ""). */
  predicate TruthyString(v: Option<string>) { v.Some? && v.value != "" }

  /** Seconds since the epoch, as the codec's clock reads milliseconds. */
  function Seconds(nowMs: nat): nat { nowMs / 1000 }

  predicate IsIssued(issued: seq<SignedRecord>, t: Token) {
    t.Signed? && t.serial < |issued|
  }

  /**
   * `verify`: a token the codec signed is valid until its `exp`; at or after `exp` it is
   * expired (section 4.1.4 of RFC 7519: the current time must be before `exp`). Anything
   * else fails the signature check.
   */
  function Verify(issued: seq<SignedRecord>, t: Token, nowSec: int): (v: Verified)
    ensures v.Valid? <==> IsIssued(issued, t) &&
                          (issued[t.serial].exp.None? || nowSec < issued[t.serial].exp.value)
    ensures v.Valid? ==> v.claims == issued[t.serial].claims
    ensures v.Expired? <==> IsIssued(issued, t) && issued[t.serial].exp.Some? &&
                            issued[t.serial].exp.value <= nowSec
  {
    if !IsIssued(issued, t) then Malformed
    else
      var rec := issued[t.serial];
      if rec.exp.Some? && nowSec >= rec.exp.value then Expired else Valid(rec.claims)
  }

  /** `decode`: reads the claims without checking the signature or the expiry. */
  function Decode(issued: seq<SignedRecord>, t: Token): (c: Option<Claims>)
    ensures IsIssued(issued, t) ==> c == Some(issued[t.serial].claims)
    ensures t.Unverifiable? ==> c == Some(t.claims)
    ensures c.Some? ==> IsIssued(issued, t) || t.Unverifiable?
  {
    match t
    case Signed(n) => if n < |issued| then Some(issued[n].claims) else None
    case Unverifiable(c) => Some(c)
    case Garbage(_) => None
  }

  /** The `exp` claim of a token signed at `nowMs` with a lifetime of `ttl` seconds. */
  function ExpiryAfter(nowMs: nat, ttl: Option<nat>): Option<int> {
    if ttl.Some? then Some(Seconds(nowMs) + ttl.value) else None
  }

  /** A token verifies immediately after signing exactly when its lifetime is positive. */
  lemma FreshTokenValidIffPositiveTtl(issued: seq<SignedRecord>, c: Claims, nowMs: nat, ttl: nat)
    ensures var t := Signed(|issued|);
            var issued' := issued + [SignedRecord(c, ExpiryAfter(nowMs, Some(ttl)))];
            Verify(issued', t, Seconds(nowMs)) == (if ttl > 0 then Valid(c) else Expired)
  {
  }

  /** Verification only depends on the token's own record, so signing more tokens changes nothing. */
  lemma VerifyStableUnderSigning(issued: seq<SignedRecord>, more: seq<SignedRecord>, t: Token, nowSec: int)
    requires IsIssued(issued, t)
    ensures Verify(issued + more, t, nowSec) == Verify(issued, t, nowSec)
  {
    assert (issued + more)[t.serial] == issued[t.serial];
  }

  /** The codec: the table of what it has signed. */
  class JwtService {
    var issued: seq<SignedRecord>

    constructor ()
      ensures issued == []
    {
      issued := [];
    }

    /** `sign(payload, {expiresIn})`: the token is fresh, distinct from every token signed before. */
    method Sign(claims: Claims, ttl: Option<nat>, nowMs: nat) returns (t: Token)
      modifies this
      ensures issued == old(issued) + [SignedRecord(claims, ExpiryAfter(nowMs, ttl))]
      ensures t == Signed(|old(issued)|)
      ensures !IsIssued(old(issued), t) && IsIssued(issued, t)
    {
      t := Signed(|issued|);
      issued := issued + [SignedRecord(claims, ExpiryAfter(nowMs, ttl))];
    }
  }
}
