/** A stand-in for the JSON Web Token scheme (RFC 7519) of the `jsonwebtoken` package, as
    auth.ts uses it: `sign` with a secret and a 30-day `expiresIn`, `verify` with the same
    secret against the clock. The cryptography is replaced by a keyed tag (`Mac`); what is kept
    is the observable contract: a token carries the payload and an `exp` claim (section 4.1.4
    of RFC 7519) in whole seconds, verification rejects a malformed token, a token whose tag
    does not match the secret, and a token at or after its expiry. */
module Jwt {
  import opened Wrappers
  import opened Strings

  /** The `JwtPayload` interface: what `generateToken` signs. */
  datatype Payload = Payload(userId: string, email: string)

  /** The claims in a signed token: the payload plus `iat` and `exp` in seconds since the epoch. */
  datatype Claims = Claims(payload: Payload, iat: nat, exp: nat)

  /** Why `jwt.verify` throws. */
  datatype VerifyError = Malformed | BadSignature | Expired

  /** `expiresIn: '30d'`, in seconds. */
  const ThirtyDays: nat := 30 * 24 * 60 * 60

  /** jsonwebtoken reads the clock as `Math.floor(Date.now() / 1000)`. */
  function Seconds(nowMs: nat): nat {
    nowMs / 1000
  }

  // ---- Field encoding: every field is escaped and terminated by '.' ----

  function Escape(s: string): (r: string)
  {
    if s == [] then []
    else (if s[0] == '.' || s[0] == '\\' then ['\\', s[0]] else [s[0]]) + Escape(s[1..])
  }

  /** Reads one escaped field up to its terminating '.', returning it unescaped with what follows. */
  function ReadField(t: string): (r: Option<(string, string)>)
    ensures r.Some? ==> |r.value.1| < |t|
    decreases |t|
  {
    if t == [] then None
    else if t[0] == '.' then Some(([], t[1..]))
    else if t[0] == '\\' && |t| == 1 then None
    else
      var n := if t[0] == '\\' then 2 else 1;
      match ReadField(t[n..])
      case None => None
      case Some((f, rest)) => Some(([t[n - 1]] + f, rest))
  }

  function EncodeFields(fs: seq<string>): string {
    if fs == [] then [] else Escape(fs[0]) + "." + EncodeFields(fs[1..])
  }

  function DecodeFields(t: string): Option<seq<string>>
    decreases |t|
  {
    if t == [] then Some([])
    else match ReadField(t)
      case None => None
      case Some((f, rest)) =>
        match DecodeFields(rest)
        case None => None
        case Some(fs) => Some([f] + fs)
  }

  lemma {:induction false} ReadFieldOfEscape(s: string, rest: string)
    ensures ReadField(Escape(s) + "." + rest) == Some((s, rest))
    decreases |s|
  {
    var t := Escape(s) + "." + rest;
    if s == [] {
      assert t == "." + rest;
    } else {
      var n := if s[0] == '.' || s[0] == '\\' then 2 else 1;
      assert t[n..] == Escape(s[1..]) + "." + rest;
      ReadFieldOfEscape(s[1..], rest);
      assert [s[0]] + s[1..] == s;
    }
  }

  /** Decoding an encoded field list gives the list back, whatever characters the fields hold. */
  lemma {:induction false} DecodeEncodeFields(fs: seq<string>)
    ensures DecodeFields(EncodeFields(fs)) == Some(fs)
    decreases |fs|
  {
    if fs != [] {
      ReadFieldOfEscape(fs[0], EncodeFields(fs[1..]));
      assert Escape(fs[0]) + "." + EncodeFields(fs[1..]) == EncodeFields(fs);
      DecodeEncodeFields(fs[1..]);
      assert [fs[0]] + fs[1..] == fs;
    }
  }

  // ---- Signing and verification ----

  /** The keyed tag standing in for the HMAC signature. */
  function Mac(secret: string, body: string): string {
    secret + body
  }

  function ClaimFields(c: Claims): seq<string> {
    [c.payload.userId, c.payload.email, Decimal(c.iat), Decimal(c.exp)]
  }

  /** The token for `c` under `secret`: the claim fields, then the tag over their encoding. */
  function Encode(c: Claims, secret: string): (token: string)
    ensures token != []
  {
    var body := EncodeFields(ClaimFields(c));
    EncodeFields(ClaimFields(c) + [Mac(secret, body)])
  }

  /** `jwt.sign(payload, secret, { expiresIn: '30d' })` at time `nowMs`. */
  function Sign(secret: string, payload: Payload, nowMs: nat): string {
    Encode(Claims(payload, Seconds(nowMs), Seconds(nowMs) + ThirtyDays), secret)
  }

  /** `jwt.verify(token, secret)` at time `nowMs`: the payload, or why it throws. As in
      jsonwebtoken, the tag is checked before the expiry, and a token is expired once the
      clock in seconds reaches `exp`. */
  function Verify(token: string, secret: string, nowMs: nat): Result<Payload, VerifyError> {
    match DecodeFields(token)
    case None => Err(Malformed)
    case Some(fs) =>
      if |fs| != 5 then Err(Malformed)
      else match (ParseDecimal(fs[2]), ParseDecimal(fs[3]))
        case (Some(_), Some(exp)) =>
          if fs[4] != Mac(secret, EncodeFields(fs[..4])) then Err(BadSignature)
          else if Seconds(nowMs) >= exp then Err(Expired)
          else Ok(Payload(fs[0], fs[1]))
        case _ => Err(Malformed)
  }

  /** Verifying an encoded token with the secret it was made with yields its payload before
      its expiry and fails as expired at or after it. */
  lemma VerifyEncoded(c: Claims, secret: string, nowMs: nat)
    ensures Verify(Encode(c, secret), secret, nowMs)
         == if Seconds(nowMs) < c.exp then Ok(c.payload) else Err(Expired)
  {
    var body := EncodeFields(ClaimFields(c));
    var fs := ClaimFields(c) + [Mac(secret, body)];
    DecodeEncodeFields(fs);
    assert fs[..4] == ClaimFields(c);
    ParseDecimalRoundTrip(c.iat);
    ParseDecimalRoundTrip(c.exp);
  }

  /** A token verifies, before its expiry, to the pair it was signed with, and the expiry
      is 30 days after the issue time: at or after that instant it fails as expired. */
  lemma VerifySigned(secret: string, payload: Payload, issuedMs: nat, nowMs: nat)
    ensures Verify(Sign(secret, payload, issuedMs), secret, nowMs)
         == if Seconds(nowMs) < Seconds(issuedMs) + ThirtyDays then Ok(payload) else Err(Expired)
  {
    VerifyEncoded(Claims(payload, Seconds(issuedMs), Seconds(issuedMs) + ThirtyDays), secret, nowMs);
  }

  /** A token made with one secret does not verify with another, expired or not. */
  lemma VerifyOtherSecret(c: Claims, secret: string, other: string, nowMs: nat)
    requires other != secret
    ensures Verify(Encode(c, secret), other, nowMs) == Err(BadSignature)
  {
    var body := EncodeFields(ClaimFields(c));
    var fs := ClaimFields(c) + [Mac(secret, body)];
    DecodeEncodeFields(fs);
    assert fs[..4] == ClaimFields(c);
    ParseDecimalRoundTrip(c.iat);
    ParseDecimalRoundTrip(c.exp);
    assert |Mac(other, body)| != |Mac(secret, body)| || Mac(other, body)[..|other|] != Mac(secret, body)[..|secret|];
  }
}
