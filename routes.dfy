/** The three handlers of backend/src/routes/riskRoutes.ts, with the middleware each route
    runs first: GET /assessment (optional guard, fixed profile, never stored),
    POST /assessment (required guard, validators, generator, store append) and
    POST /assessment/guest (validators, generator, never stored).
    The AI generator is the function `generate` (None when it throws), the store's insert
    outcome is `created` (None when it throws), and the clock is `nowMs` with its ISO
    rendering `nowIso`. */
module Routes {
  import opened Wrappers
  import opened Strings
  import opened Validation
  import opened Http
  import opened Jwt
  import opened Auth

  /** What `generateRiskSummary` returns. */
  datatype RiskResult = RiskResult(riskScore: RiskScore, summary: string)

  /** A `RiskAssessment` document. */
  datatype Record = Record(id: string, userId: string, input: AssessmentInput,
                           riskScore: RiskScore, aiSummary: string, createdAt: string)

  /** What the store assigns to a document it inserts: `_id` and `createdAt`. */
  datatype Stamp = Stamp(id: string, createdAt: string)

  /** Everything a handler does: its reply, the input it passed to the generator if it called
      it, and the record it stored if it stored one. */
  datatype Effect = Effect(reply: Response, generated: Option<AssessmentInput>, saved: Option<Record>)

  function AsSeq<T>(o: Option<T>): seq<T> {
    match o
    case None => []
    case Some(x) => [x]
  }

  /** The profile GET /assessment always assesses. */
  const DefaultProfile := AssessmentInput(40, Male, 130, 85, 200.0, false)

  const GetFailureMessage := "Something went wrong while fetching AI assessment."
  const GuestGreeting := "General AI-generated assessment for guest."
  const UnauthorizedMessage := "Unauthorized"
  const SavedMessage := "Assessment saved successfully."
  const SaveFailureMessage := "Error generating or saving assessment."
  const GuestSuccessMessage := "Guest AI assessment generated successfully."
  const GuestFailureMessage := "Failed to generate guest AI assessment."
  const TempPrefix := "temp-"
  const GuestPrefix := "guest-"

  /** A template literal's `${s}`: an undefined value prints as "undefined". */
  function Interpolate(s: Option<string>): string {
    match s
    case None => "undefined"
    case Some(v) => v
  }

  function PersonalizedMessage(email: Option<string>): string {
    "Personalized assessment for " + Interpolate(email) + "."
  }

  /** `prefix + Date.now()`: the id begins with the prefix and the rest reads back as the clock. */
  function AssessmentId(prefix: string, nowMs: nat): (id: string)
    ensures |prefix| < |id| && id[..|prefix|] == prefix
    ensures ParseDecimal(id[|prefix|..]) == Some(nowMs)
  {
    ParseDecimalRoundTrip(nowMs);
    assert (prefix + Decimal(nowMs))[|prefix|..] == Decimal(nowMs);
    prefix + Decimal(nowMs)
  }

  /** The ids GET hands to a signed-in caller never coincide with guest ids, at any two times. */
  lemma TempAndGuestIdsDiffer(n: nat, m: nat)
    ensures AssessmentId(TempPrefix, n) != AssessmentId(GuestPrefix, m)
  {
    assert AssessmentId(TempPrefix, n)[0] == 't';
    assert AssessmentId(GuestPrefix, m)[0] == 'g';
  }

  function DataOf(r: Record): Data {
    Data(r.id, r.riskScore, r.aiSummary, r.createdAt)
  }

  // ---- GET /assessment ----

  /** The GET handler, given the identity fields the optional guard left on the request. */
  function GetHandler(userId: Option<string>, userEmail: Option<string>,
                      generate: AssessmentInput -> Option<RiskResult>,
                      nowMs: nat, nowIso: string): (e: Effect)
    ensures e.generated == Some(DefaultProfile) && e.saved.None?
    ensures e.reply.success <==> generate(DefaultProfile).Some?
    ensures !e.reply.success ==> e.reply == Status500(GetFailureMessage)
    ensures e.reply.success ==> e.reply.status == 200 && e.reply.data.Some? && e.reply.errors.None?
    ensures e.reply.success ==>
              && e.reply.data.value.riskScore == generate(DefaultProfile).value.riskScore
              && e.reply.data.value.summary == generate(DefaultProfile).value.summary
              && e.reply.data.value.createdAt == nowIso
    ensures e.reply.success && Truthy(userId) ==>
              && e.reply.message == Some(PersonalizedMessage(userEmail))
              && e.reply.data.value.id == AssessmentId(TempPrefix, nowMs)
    ensures e.reply.success && !Truthy(userId) ==>
              && e.reply.message == Some(GuestGreeting)
              && e.reply.data.value.id == AssessmentId(GuestPrefix, nowMs)
  {
    match generate(DefaultProfile)
    case None => Effect(Status500(GetFailureMessage), Some(DefaultProfile), None)
    case Some(g) =>
      var member := Truthy(userId);
      var message := if member then PersonalizedMessage(userEmail) else GuestGreeting;
      var id := AssessmentId(if member then TempPrefix else GuestPrefix, nowMs);
      Effect(Json200(message, Data(id, g.riskScore, g.summary, nowIso)), Some(DefaultProfile), None)
  }

  /** GET /assessment: `authenticateOptional`, then the handler. `userId`/`userEmail` are the
      request's fields before the guard runs. Whoever calls, the generator assesses the default
      profile and nothing is stored; the only failure is the generator's 500. */
  function GetRoute(authorization: Option<string>, secret: string, nowMs: nat,
                    userId: Option<string>, userEmail: Option<string>,
                    generate: AssessmentInput -> Option<RiskResult>, nowIso: string): (e: Effect)
    ensures e.generated == Some(DefaultProfile) && e.saved.None?
    ensures e.reply.status in {200, 500}
  {
    match OptionalIdentity(authorization, secret, nowMs)
    case Some(p) => GetHandler(Some(p.userId), Some(p.email), generate, nowMs, nowIso)
    case None => GetHandler(userId, userEmail, generate, nowMs, nowIso)
  }

  /** GET without a credential on a fresh request: the guest greeting and a `guest-` id. */
  lemma GetAsGuest(secret: string, nowMs: nat, generate: AssessmentInput -> Option<RiskResult>,
                   nowIso: string)
    requires generate(DefaultProfile).Some?
    ensures var e := GetRoute(None, secret, nowMs, None, None, generate, nowIso);
            && e.reply.status == 200
            && e.reply.message == Some(GuestGreeting)
            && e.reply.data.value.id == AssessmentId(GuestPrefix, nowMs)
            && e.saved.None?
  {
  }

  /** GET with a live token for a non-empty user id: the message names the token's email and
      the id is a `temp-` id; nothing is stored. */
  lemma GetAsMember(secret: string, userId: string, email: string, issuedMs: nat, nowMs: nat,
                    generate: AssessmentInput -> Option<RiskResult>, nowIso: string)
    requires userId != ""
    requires Seconds(nowMs) < Seconds(issuedMs) + ThirtyDays
    requires generate(DefaultProfile).Some?
    ensures var e := GetRoute(Some(Bearer + GenerateToken(secret, userId, email, issuedMs)),
                              secret, nowMs, None, None, generate, nowIso);
            && e.reply.status == 200
            && e.reply.message == Some("Personalized assessment for " + email + ".")
            && e.reply.data.value.id == AssessmentId(TempPrefix, nowMs)
            && e.saved.None?
  {
    var header := Some(Bearer + GenerateToken(secret, userId, email, issuedMs));
    GuardOnGeneratedToken(secret, userId, email, issuedMs, nowMs);
    OptionalMatchesRequired(header, secret, nowMs);
  }

  /** A header whose token `authenticate` would refuse, expired or forged, leaves a fresh
      request unidentified: GET answers it exactly as it answers a request with no header. */
  lemma GetWithRefusedToken(authorization: Option<string>, secret: string, nowMs: nat,
                            generate: AssessmentInput -> Option<RiskResult>, nowIso: string)
    requires Guard(authorization, secret, nowMs).Halt?
    ensures GetRoute(authorization, secret, nowMs, None, None, generate, nowIso)
         == GetRoute(None, secret, nowMs, None, None, generate, nowIso)
  {
    OptionalMatchesRequired(authorization, secret, nowMs);
  }

  /** An expired token gets the guest reply from GET, not a 401. */
  lemma GetWithExpiredToken(secret: string, userId: string, email: string, issuedMs: nat, nowMs: nat,
                            generate: AssessmentInput -> Option<RiskResult>, nowIso: string)
    requires Seconds(nowMs) >= Seconds(issuedMs) + ThirtyDays
    ensures GetRoute(Some(Bearer + GenerateToken(secret, userId, email, issuedMs)),
                     secret, nowMs, None, None, generate, nowIso)
         == GetRoute(None, secret, nowMs, None, None, generate, nowIso)
  {
    GuardOnGeneratedToken(secret, userId, email, issuedMs, nowMs);
    GetWithRefusedToken(Some(Bearer + GenerateToken(secret, userId, email, issuedMs)),
                        secret, nowMs, generate, nowIso);
  }

  /** A live token whose user id is empty is attached by the optional guard, yet the handler
      treats the caller as a guest: the greeting and the `guest-` id of an anonymous GET. */
  lemma GetWithEmptyUserId(secret: string, email: string, issuedMs: nat, nowMs: nat,
                           generate: AssessmentInput -> Option<RiskResult>, nowIso: string)
    requires Seconds(nowMs) < Seconds(issuedMs) + ThirtyDays
    ensures GetRoute(Some(Bearer + GenerateToken(secret, "", email, issuedMs)),
                     secret, nowMs, None, None, generate, nowIso)
         == GetRoute(None, secret, nowMs, None, None, generate, nowIso)
  {
    var header := Some(Bearer + GenerateToken(secret, "", email, issuedMs));
    GuardOnGeneratedToken(secret, "", email, issuedMs, nowMs);
    OptionalMatchesRequired(header, secret, nowMs);
  }

  // ---- POST /assessment ----

  /** The POST /assessment handler, run after the validators, given the request's `userId`.
      Invalid input answers 400 before the identity is even looked at; the generator sees only
      validated input from an identified caller; a record is stored exactly when the reply is a
      success, it carries the caller's id and the validated input, and the reply's data is read
      back from it. */
  function PostHandler(userId: Option<string>, body: Body,
                       generate: AssessmentInput -> Option<RiskResult>,
                       created: Option<Stamp>): (e: Effect)
    ensures e.reply.status in {200, 400, 401, 500}
    ensures e.reply.success <==> e.saved.Some?
    ensures Validate(body).Err? ==> e.reply == Status400(Validate(body).error) && e.generated.None?
    ensures Validate(body).Ok? && !Truthy(userId) ==>
              e.reply == Status401(UnauthorizedMessage) && e.generated.None?
    ensures e.generated.Some? ==> Truthy(userId) && Validate(body) == Ok(e.generated.value)
    ensures e.saved.Some? ==>
              && e.generated.Some?
              && created == Some(Stamp(e.saved.value.id, e.saved.value.createdAt))
              && e.saved.value.userId == userId.value
              && e.saved.value.input == e.generated.value
              && e.reply.data == Some(DataOf(e.saved.value))
    ensures e.reply.status == 500 ==> e.reply == Status500(SaveFailureMessage) && e.generated.Some?
    ensures e.saved.Some? ==>
              generate(e.generated.value) == Some(RiskResult(e.saved.value.riskScore, e.saved.value.aiSummary))
    ensures Validate(body).Ok? ==> e.reply.status != 400
    ensures Validate(body).Ok? && Truthy(userId) ==>
              && e.generated == Some(Validate(body).value)
              && (generate(Validate(body).value).None? || created.None? <==>
                    e.reply == Status500(SaveFailureMessage) && e.saved.None?)
    ensures Validate(body).Ok? && Truthy(userId) && generate(Validate(body).value).Some? && created.Some? ==>
              e.saved.Some? && e.reply == Json200(SavedMessage, DataOf(e.saved.value))
    ensures e.reply.success ==> e.saved.Some? && e.reply == Json200(SavedMessage, DataOf(e.saved.value))
  {
    var v := Validate(body);
    if v.Err? then Effect(Status400(v.error), None, None)
    else if !Truthy(userId) then Effect(Status401(UnauthorizedMessage), None, None)
    else match generate(v.value)
      case None => Effect(Status500(SaveFailureMessage), Some(v.value), None)
      case Some(g) =>
        match created
        case None => Effect(Status500(SaveFailureMessage), Some(v.value), None)
        case Some(stamp) =>
          var rec := Record(stamp.id, userId.value, v.value, g.riskScore, g.summary, stamp.createdAt);
          Effect(Json200(SavedMessage, DataOf(rec)), Some(v.value), Some(rec))
  }

  /** POST /assessment: `authenticate`, then the validators and the handler. A request the guard
      halts gets its 401 whatever the body holds, and neither the generator nor the store is
      touched. */
  function PostRoute(authorization: Option<string>, secret: string, nowMs: nat, body: Body,
                     generate: AssessmentInput -> Option<RiskResult>,
                     created: Option<Stamp>): (e: Effect)
    ensures Guard(authorization, secret, nowMs).Halt? ==>
              e == Effect(Guard(authorization, secret, nowMs).reply, None, None)
    ensures e.saved.Some? ==>
              Guard(authorization, secret, nowMs).Continue?
              && e.saved.value.userId == Guard(authorization, secret, nowMs).identity.userId
  {
    match Guard(authorization, secret, nowMs)
    case Halt(reply) => Effect(reply, None, None)
    case Continue(p) => PostHandler(Some(p.userId), body, generate, created)
  }

  /** With a live token and a valid body, a working generator and store: exactly the record
      tagged with the token's user id is stored, and the reply's id is the stored id. */
  lemma PostStoresForTokenHolder(secret: string, userId: string, email: string,
                                 issuedMs: nat, nowMs: nat, x: AssessmentInput,
                                 generate: AssessmentInput -> Option<RiskResult>, stamp: Stamp)
    requires userId != ""
    requires Seconds(nowMs) < Seconds(issuedMs) + ThirtyDays
    requires InRange(x) && generate(x).Some?
    ensures var e := PostRoute(Some(Bearer + GenerateToken(secret, userId, email, issuedMs)),
                               secret, nowMs, ToBody(x), generate, Some(stamp));
            && e.reply.status == 200
            && e.saved == Some(Record(stamp.id, userId, x, generate(x).value.riskScore,
                                      generate(x).value.summary, stamp.createdAt))
            && e.reply.data.value.id == stamp.id
  {
    GuardOnGeneratedToken(secret, userId, email, issuedMs, nowMs);
    ValidateToBody(x);
  }

  /** The handler's own identity check is reachable: a live token whose user id is empty gets
      past `authenticate` but is answered 401 "Unauthorized" for a valid body. */
  lemma PostEmptyUserIdIsUnauthorized(secret: string, email: string, issuedMs: nat, nowMs: nat,
                                      x: AssessmentInput,
                                      generate: AssessmentInput -> Option<RiskResult>,
                                      created: Option<Stamp>)
    requires Seconds(nowMs) < Seconds(issuedMs) + ThirtyDays
    requires InRange(x)
    ensures PostRoute(Some(Bearer + GenerateToken(secret, "", email, issuedMs)),
                      secret, nowMs, ToBody(x), generate, created)
         == Effect(Status401(UnauthorizedMessage), None, None)
  {
    GuardOnGeneratedToken(secret, "", email, issuedMs, nowMs);
    ValidateToBody(x);
  }

  // ---- POST /assessment/guest ----

  /** The guest handler: never stores; the generator sees only validated input; a success
      carries a `guest-` id stamped with the clock. */
  function GuestHandler(body: Body, generate: AssessmentInput -> Option<RiskResult>,
                        nowMs: nat, nowIso: string): (e: Effect)
    ensures e.saved.None?
    ensures e.reply.status in {200, 400, 500}
    ensures Validate(body).Err? ==> e.reply == Status400(Validate(body).error) && e.generated.None?
    ensures Validate(body).Ok? ==> e.generated == Some(Validate(body).value)
    ensures e.reply.status == 500 ==> e.reply == Status500(GuestFailureMessage)
    ensures e.reply.success ==>
              && e.reply.status == 200 && e.reply.data.Some? && e.reply.errors.None?
              && e.reply.data.value.id == AssessmentId(GuestPrefix, nowMs)
    ensures Validate(body).Ok? ==>
              (e.reply.success <==> generate(Validate(body).value).Some?)
    ensures Validate(body).Ok? && generate(Validate(body).value).None? ==>
              e.reply == Status500(GuestFailureMessage)
    ensures e.reply.success ==>
              && e.reply.message == Some(GuestSuccessMessage)
              && e.generated.Some?
              && e.reply.data.value.riskScore == generate(e.generated.value).value.riskScore
              && e.reply.data.value.summary == generate(e.generated.value).value.summary
              && e.reply.data.value.createdAt == nowIso
  {
    match Validate(body)
    case Err(errors) => Effect(Status400(errors), None, None)
    case Ok(x) =>
      match generate(x)
      case None => Effect(Status500(GuestFailureMessage), Some(x), None)
      case Some(g) =>
        Effect(Json200(GuestSuccessMessage, Data(AssessmentId(GuestPrefix, nowMs), g.riskScore, g.summary, nowIso)),
               Some(x), None)
  }
  /** A guest's in-range input reaches the generator unchanged, and the reply is the generator's
      assessment under a `guest-` id stamped with the clock, or the fixed 500 when it fails. */
  lemma GuestAssessesValidInput(x: AssessmentInput, generate: AssessmentInput -> Option<RiskResult>,
                                nowMs: nat, nowIso: string)
    requires InRange(x)
    ensures var e := GuestHandler(ToBody(x), generate, nowMs, nowIso);
            && e.generated == Some(x)
            && e.saved.None?
            && e.reply == match generate(x)
                          case None => Status500(GuestFailureMessage)
                          case Some(g) =>
                            Json200(GuestSuccessMessage,
                                    Data(AssessmentId(GuestPrefix, nowMs), g.riskScore, g.summary, nowIso))
  {
    ValidateToBody(x);
  }


  /** The running backend: the secret fixed at start-up, the assessment collection, and the
      inputs passed to the generator so far. */
  class Backend {
    const secret: string
    var store: seq<Record>
    var generatorCalls: seq<AssessmentInput>

    /** Start-up: `JWT_SECRET` is read once; the secret never changes afterwards. */
    constructor (env: Option<string>, store: seq<Record>)
      ensures secret == JwtSecret(env) && this.store == store && generatorCalls == []
    {
      secret := JwtSecret(env);
      this.store := store;
      generatorCalls := [];
    }

    /** `await generateRiskSummary(input)`. */
    method Generate(input: AssessmentInput, generate: AssessmentInput -> Option<RiskResult>)
      returns (r: Option<RiskResult>)
      modifies this`generatorCalls
      ensures generatorCalls == old(generatorCalls) + [input]
      ensures r == generate(input)
    {
      generatorCalls := generatorCalls + [input];
      r := generate(input);
    }

    /** `await RiskAssessment.create(...)`: appends the document with the store's id and
        timestamp, or throws (None) and leaves the store as it was. */
    method Create(userId: string, input: AssessmentInput, result: RiskResult, created: Option<Stamp>)
      returns (rec: Option<Record>)
      modifies this`store
      ensures rec.Some? <==> created.Some?
      ensures rec.Some? ==>
                rec.value == Record(created.value.id, userId, input, result.riskScore, result.summary,
                                    created.value.createdAt)
      ensures store == old(store) + AsSeq(rec)
    {
      match created
      case None =>
        rec := None;
      case Some(stamp) =>
        var r := Record(stamp.id, userId, input, result.riskScore, result.summary, stamp.createdAt);
        store := store + [r];
        rec := Some(r);
    }

    /** The GET handler on a request the optional guard has passed. */
    method HandleGet(req: Request, generate: AssessmentInput -> Option<RiskResult>,
                     nowMs: nat, nowIso: string)
      modifies req`response, this`generatorCalls
      ensures var e := GetHandler(req.userId, req.userEmail, generate, nowMs, nowIso);
              && req.response == Some(e.reply)
              && generatorCalls == old(generatorCalls) + AsSeq(e.generated)
    {
      var g := Generate(DefaultProfile, generate);
      if g.None? {
        req.Send(Status500(GetFailureMessage));
        return;
      }
      var member := Truthy(req.userId);
      var message := if member then PersonalizedMessage(req.userEmail) else GuestGreeting;
      var id := AssessmentId(if member then TempPrefix else GuestPrefix, nowMs);
      req.Send(Json200(message, Data(id, g.value.riskScore, g.value.summary, nowIso)));
    }

    /** GET /assessment: always answers, calls `next` once, assesses the default profile once,
        and leaves the store alone. */
    method GetAssessment(req: Request, generate: AssessmentInput -> Option<RiskResult>,
                         nowMs: nat, nowIso: string)
      modifies req, this`generatorCalls
      ensures var e := GetRoute(req.authorization, secret, nowMs, old(req.userId), old(req.userEmail),
                                generate, nowIso);
              && req.response == Some(e.reply)
              && req.nextCalls == old(req.nextCalls) + 1
      ensures match OptionalIdentity(req.authorization, secret, nowMs)
              case Some(p) => req.userId == Some(p.userId) && req.userEmail == Some(p.email)
              case None => req.userId == old(req.userId) && req.userEmail == old(req.userEmail)
      ensures generatorCalls == old(generatorCalls) + [DefaultProfile]
      ensures store == old(store)
    {
      AuthenticateOptional(req, secret, nowMs);
      HandleGet(req, generate, nowMs, nowIso);
    }

    /** The POST /assessment handler, run once the validators have looked at the body. */
    method HandlePost(req: Request, generate: AssessmentInput -> Option<RiskResult>,
                      created: Option<Stamp>)
      modifies req`response, this`store, this`generatorCalls
      ensures var e := PostHandler(req.userId, req.body, generate, created);
              && req.response == Some(e.reply)
              && generatorCalls == old(generatorCalls) + AsSeq(e.generated)
              && store == old(store) + AsSeq(e.saved)
    {
      var v := Validate(req.body);
      if v.Err? {
        req.Send(Status400(v.error));
        return;
      }
      var userId := req.userId;
      if !Truthy(userId) {
        req.Send(Status401(UnauthorizedMessage));
        return;
      }
      var g := Generate(v.value, generate);
      if g.None? {
        req.Send(Status500(SaveFailureMessage));
        return;
      }
      var rec := Create(userId.value, v.value, g.value, created);
      if rec.None? {
        req.Send(Status500(SaveFailureMessage));
        return;
      }
      var stored := store[|store| - 1];
      req.Send(Json200(SavedMessage, DataOf(stored)));
    }

    /** POST /assessment: `authenticate`, then (only if it called `next`) the handler. The store
        grows by at most one record, and when it grows, the reply's id is the new record's id. */
    method PostAssessment(req: Request, generate: AssessmentInput -> Option<RiskResult>,
                          created: Option<Stamp>, nowMs: nat)
      modifies req, this`store, this`generatorCalls
      ensures var e := PostRoute(req.authorization, secret, nowMs, req.body, generate, created);
              && req.response == Some(e.reply)
              && generatorCalls == old(generatorCalls) + AsSeq(e.generated)
              && store == old(store) + AsSeq(e.saved)
      ensures |store| > |old(store)| ==> req.response.value.data == Some(DataOf(store[|store| - 1]))
      ensures req.nextCalls == old(req.nextCalls) + (if Guard(req.authorization, secret, nowMs).Continue? then 1 else 0)
      ensures match Guard(req.authorization, secret, nowMs)
              case Continue(p) => req.userId == Some(p.userId) && req.userEmail == Some(p.email)
              case Halt(_) => req.userId == old(req.userId) && req.userEmail == old(req.userEmail)
    {
      var before := req.nextCalls;
      Authenticate(req, secret, nowMs);
      if req.nextCalls == before + 1 {
        HandlePost(req, generate, created);
      }
    }

    /** POST /assessment/guest: the validators and the handler; the store is never touched. */
    method PostGuest(req: Request, generate: AssessmentInput -> Option<RiskResult>,
                     nowMs: nat, nowIso: string)
      modifies req`response, this`generatorCalls
      ensures var e := GuestHandler(req.body, generate, nowMs, nowIso);
              && req.response == Some(e.reply)
              && generatorCalls == old(generatorCalls) + AsSeq(e.generated)
      ensures store == old(store)
    {
      var v := Validate(req.body);
      if v.Err? {
        req.Send(Status400(v.error));
        return;
      }
      var g := Generate(v.value, generate);
      if g.None? {
        req.Send(Status500(GuestFailureMessage));
        return;
      }
      req.Send(Json200(GuestSuccessMessage,
                       Data(AssessmentId(GuestPrefix, nowMs), g.value.riskScore, g.value.summary, nowIso)));
    }
  }
}
