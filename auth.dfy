/** The identity guards of backend/src/middleware/auth.ts: bearer-token extraction, the
    required guard `authenticate`, the optional guard `authenticateOptional`, and
    `generateToken`, all over one process-wide secret. */
module Auth {
  import opened Wrappers
  import opened Strings
  import opened Jwt
  import opened Http

  const DefaultSecret := "your-secret-key-change-in-production"

  /** `process.env.JWT_SECRET || default`: an unset or empty variable falls back to the default,
      so the secret is never empty. */
  function JwtSecret(env: Option<string>): (secret: string)
    ensures secret != []
    ensures Truthy(env) ==> secret == env.value
    ensures !Truthy(env) ==> secret == DefaultSecret
  {
    if Truthy(env) then env.value else DefaultSecret
  }

  const Bearer := "Bearer "

  /** `req.headers.authorization?.replace('Bearer ', '')`. */
  function ExtractToken(authorization: Option<string>): (token: Option<string>)
    ensures token.Some? <==> authorization.Some?
  {
    match authorization
    case None => None
    case Some(h) => Some(ReplaceFirst(h, Bearer, ""))
  }

  /** A header of the form `Bearer <t>` yields `<t>`, even if `<t>` itself holds "Bearer "
      (only the first occurrence is removed); the header "Bearer " alone yields the empty,
      falsy token. */
  lemma ExtractBearer(t: string)
    ensures ExtractToken(Some(Bearer + t)) == Some(t)
    ensures ExtractToken(Some(Bearer)) == Some("") && !Truthy(ExtractToken(Some(Bearer)))
  {
    ReplaceFirstAtStart(Bearer, t, "");
    assert "" + t == t;
    ReplaceFirstAtStart(Bearer, "", "");
    assert Bearer + "" == Bearer;
  }

  /** A header without "Bearer " anywhere is passed whole as the token. */
  lemma ExtractWithoutBearer(h: string)
    requires forall j :: 0 <= j <= |h| ==> !OccursAt(h, Bearer, j)
    ensures ExtractToken(Some(h)) == Some(h)
  {
  }

  /** "Bearer " in the middle of a header is cut out there, not only at the front: the
      extraction is a replace, not a prefix strip. */
  lemma ExtractCutsFirstOccurrence(h: string, i: nat)
    requires OccursAt(h, Bearer, i)
    requires forall j :: 0 <= j < i ==> !OccursAt(h, Bearer, j)
    ensures ExtractToken(Some(h)) == Some(h[..i] + h[i + |Bearer|..])
  {
    ReplaceFirstSplits(h, Bearer, "", i);
    assert h[..i] + "" + h[i + |Bearer|..] == h[..i] + h[i + |Bearer|..];
  }

  const NoTokenMessage := "No token provided. Please log in."
  const InvalidTokenMessage := "Invalid or expired token. Please log in again."

  /** What `authenticate` does with a request: continue with an identity, or halt with a reply. */
  datatype Verdict = Continue(identity: Payload) | Halt(reply: Response)

  /** The decision of `authenticate`: an absent or empty token halts with the "no token" 401,
      a token that fails verification halts with the "invalid or expired" 401, and a verified
      token continues with its payload. */
  function Guard(authorization: Option<string>, secret: string, nowMs: nat): (v: Verdict)
    ensures v.Halt? ==> v.reply.status == 401 && !v.reply.success && v.reply.data.None?
    ensures !Truthy(ExtractToken(authorization)) ==> v == Halt(Status401(NoTokenMessage))
    ensures Truthy(ExtractToken(authorization)) ==>
              (v.Continue? <==> Verify(ExtractToken(authorization).value, secret, nowMs).Ok?)
    ensures v.Continue? ==> Verify(ExtractToken(authorization).value, secret, nowMs) == Ok(v.identity)
    ensures v.Halt? && Truthy(ExtractToken(authorization)) ==> v.reply == Status401(InvalidTokenMessage)
  {
    var token := ExtractToken(authorization);
    if !Truthy(token) then Halt(Status401(NoTokenMessage))
    else match Verify(token.value, secret, nowMs)
      case Ok(p) => Continue(p)
      case Err(_) => Halt(Status401(InvalidTokenMessage))
  }

  /** The identity `authenticateOptional` attaches, if any. */
  function OptionalIdentity(authorization: Option<string>, secret: string, nowMs: nat): (identity: Option<Payload>)
    ensures identity.Some? ==>
              Truthy(ExtractToken(authorization))
              && Verify(ExtractToken(authorization).value, secret, nowMs) == Ok(identity.value)
    ensures identity.None? && Truthy(ExtractToken(authorization)) ==>
              Verify(ExtractToken(authorization).value, secret, nowMs).Err?
  {
    var token := ExtractToken(authorization);
    if !Truthy(token) then None
    else match Verify(token.value, secret, nowMs)
      case Ok(p) => Some(p)
      case Err(_) => None
  }

  /** The optional guard attaches exactly the identity the required guard would continue with,
      and attaches nothing exactly when the required guard would answer 401. */
  lemma OptionalMatchesRequired(authorization: Option<string>, secret: string, nowMs: nat)
    ensures OptionalIdentity(authorization, secret, nowMs)
         == match Guard(authorization, secret, nowMs)
            case Continue(p) => Some(p)
            case Halt(_) => None
  {
  }

  /** `generateToken(userId, email)` at time `nowMs`. The token verifies at once to the pair. */
  function GenerateToken(secret: string, userId: string, email: string, nowMs: nat): (token: string)
    ensures token != []
    ensures Verify(token, secret, nowMs) == Ok(Payload(userId, email))
  {
    VerifySigned(secret, Payload(userId, email), nowMs, nowMs);
    Sign(secret, Payload(userId, email), nowMs)
  }

  /** A generated token, sent as `Bearer <token>`, lets `authenticate` continue with the pair
      until 30 days after issue, and is answered with the "invalid or expired" 401 from then on. */
  lemma GuardOnGeneratedToken(secret: string, userId: string, email: string, issuedMs: nat, nowMs: nat)
    ensures Guard(Some(Bearer + GenerateToken(secret, userId, email, issuedMs)), secret, nowMs)
         == if Seconds(nowMs) < Seconds(issuedMs) + ThirtyDays
            then Continue(Payload(userId, email))
            else Halt(Status401(InvalidTokenMessage))
  {
    var token := GenerateToken(secret, userId, email, issuedMs);
    ExtractBearer(token);
    VerifySigned(secret, Payload(userId, email), issuedMs, nowMs);
  }

  /** A token generated under another secret is refused by `authenticate`, at any time. */
  lemma GuardRefusesOtherSecret(secret: string, other: string, userId: string, email: string,
                                issuedMs: nat, nowMs: nat)
    requires other != secret
    ensures Guard(Some(Bearer + GenerateToken(other, userId, email, issuedMs)), secret, nowMs)
         == Halt(Status401(InvalidTokenMessage))
  {
    var token := GenerateToken(other, userId, email, issuedMs);
    ExtractBearer(token);
    VerifyOtherSecret(Claims(Payload(userId, email), Seconds(issuedMs), Seconds(issuedMs) + ThirtyDays),
                      other, secret, nowMs);
  }

  /** `authenticate(req, res, next)`: either writes the guard's 401 and leaves the identity
      fields and `next` alone, or attaches the payload and calls `next` exactly once without
      writing a response. */
  method Authenticate(req: Request, secret: string, nowMs: nat)
    modifies req
    ensures match Guard(req.authorization, secret, nowMs)
            case Halt(reply) =>
              && req.response == Some(reply)
              && req.nextCalls == old(req.nextCalls)
              && req.userId == old(req.userId) && req.userEmail == old(req.userEmail)
            case Continue(p) =>
              && req.response == old(req.response)
              && req.nextCalls == old(req.nextCalls) + 1
              && req.userId == Some(p.userId) && req.userEmail == Some(p.email)
  {
    var token := ExtractToken(req.authorization);
    if !Truthy(token) {
      req.Send(Status401(NoTokenMessage));
      return;
    }
    var decoded := Verify(token.value, secret, nowMs);
    if decoded.Err? {
      req.Send(Status401(InvalidTokenMessage));
      return;
    }
    req.userId := Some(decoded.value.userId);
    req.userEmail := Some(decoded.value.email);
    req.Next();
  }

  /** `authenticateOptional(req, res, next)`: never writes a response, calls `next` exactly
      once, and changes the identity fields only when the token verifies. */
  method AuthenticateOptional(req: Request, secret: string, nowMs: nat)
    modifies req
    ensures req.response == old(req.response)
    ensures req.nextCalls == old(req.nextCalls) + 1
    ensures match OptionalIdentity(req.authorization, secret, nowMs)
            case Some(p) => req.userId == Some(p.userId) && req.userEmail == Some(p.email)
            case None => req.userId == old(req.userId) && req.userEmail == old(req.userEmail)
  {
    var token := ExtractToken(req.authorization);
    if Truthy(token) {
      var decoded := Verify(token.value, secret, nowMs);
      if decoded.Ok? {
        req.userId := Some(decoded.value.userId);
        req.userEmail := Some(decoded.value.email);
      }
    }
    req.Next();
  }
}
