# Heart-risk backend: identity guards and assessment routes, in Dafny

This project models the request-handling decisions of the heart-disease risk backend.

- **Identity guards** (`backend/src/middleware/auth.ts`): extracting the bearer token from the
  `Authorization` header with a string `replace`, the required guard `authenticate`, the
  optional guard `authenticateOptional`, `generateToken`, and the process-wide secret.
- **Risk routes** (`backend/src/routes/riskRoutes.ts`):
  - GET `/assessment` runs the optional guard, assesses a fixed default profile, and never stores.
  - POST `/assessment` runs the required guard, then the validators, the generator, and a store append.
  - POST `/assessment/guest` runs the validators and the generator, and never stores.

Modules, one per concern:

- `Wrappers` holds `Option` and `Result`.
- `Strings` holds the decimal rendering of a number, with its parse-back, and JavaScript's first-occurrence `replace`.
- `Jwt` is a stand-in for the JSON Web Token scheme of RFC 7519. A token carries the payload
  `{userId, email}`, `iat` and the `exp` claim of section 4.1.4. Verification fails on a
  malformed token, on a tag that does not match the secret, and at or after `exp`.
- `Validation` holds the express-validator chain shared by both POST routes.
- `Http` holds the response envelope and the `Request` object. The guards attach `userId` and
  `userEmail` to it. It counts the calls to `next()` and records the response written.
- `Auth` holds the guards and token issuance.
- `Routes` holds each handler as a specification function returning an `Effect`: the reply,
  the input given to the generator, and the record stored. It also holds the `Backend` class:
  the secret fixed at start-up, the store as a `seq<Record>`, and a log of generator calls.
  The route methods are proved against those functions.

The external collaborators are parameters:

- the AI generator is a function `generate` that returns `None` when it throws;
- the store's insert outcome is `created`, which is `None` when it throws and otherwise holds the assigned `_id` and `createdAt`;
- the clock is `nowMs`, and `nowIso` is its ISO rendering.

Two behaviours of the code are easy to miss, and the model follows the code in both:

- The validators do not stop at the first failure. express-validator runs every rule, and the
  400 reply lists every failing field, in chain order (`Validation.ValidateReportsFailingFields`,
  `Validation.FailingAppend`).
- In POST `/assessment`, the handler's own "Unauthorized" check is not dead code. A valid token
  whose `userId` is the empty string passes `authenticate`, because the token is non-empty and
  verifies. That user id is then falsy in JavaScript, so the handler answers 401 "Unauthorized"
  (`Routes.PostEmptyUserIdIsUnauthorized`). For the same reason, GET answers such a caller with
  the guest message and a `guest-` id.

## Model

| member | source | states |
|---|---|---|
| Strings.IndexFrom | backend/src/middleware/auth.ts:28 | the position found is an occurrence of the pattern and no earlier position is; none found means no occurrence at all |
| Strings.ReplaceFirstSplits | backend/src/middleware/auth.ts:28 | `replace` with a string pattern and a replacement without `$` patterns (auth.ts passes `''`) cuts the first occurrence wherever it stands and keeps the rest; length changes by exactly `|rep| - |pat|` |
| Strings.ParseDecimalRoundTrip | backend/src/routes/riskRoutes.ts:35 | the decimal rendering of `Date.now()` reads back as the same number, so distinct times give distinct id suffixes |
| Jwt.DecodeEncodeFields | backend/src/middleware/auth.ts:74 | the token's claim fields decode back exactly, whatever characters `userId` and `email` hold |
| Jwt.VerifyEncoded | backend/src/middleware/auth.ts:36 | verifying a token with the secret it was made with yields its payload while the clock in seconds is below `exp`, and fails as expired from `exp` on |
| Jwt.VerifySigned | backend/src/middleware/auth.ts:73-75 | a signed token verifies to the signed pair for 30 days (2592000 s) after issue and is expired from then on |
| Jwt.VerifyOtherSecret | backend/src/middleware/auth.ts:36 | a token made under one secret fails signature verification under any other, expired or not |
| Auth.JwtSecret | backend/src/middleware/auth.ts:19 | the secret is `JWT_SECRET` when set and non-empty, the default string otherwise; it is never empty |
| Auth.ExtractToken | backend/src/middleware/auth.ts:28 | a token value exists exactly when the header does (optional chaining) |
| Auth.ExtractBearer | backend/src/middleware/auth.ts:28 | `Bearer <t>` yields `<t>`, with only the first "Bearer " removed; the header "Bearer " alone yields the empty, falsy token |
| Auth.ExtractWithoutBearer | backend/src/middleware/auth.ts:56 | a header with no "Bearer " anywhere is passed whole as the token |
| Auth.ExtractCutsFirstOccurrence | backend/src/middleware/auth.ts:28 | a "Bearer " inside the header is cut out where it first occurs, not only at the front |
| Auth.Guard | backend/src/middleware/auth.ts:26-47 | a missing or empty token gives the "No token provided" 401; a token that fails verification gives the "Invalid or expired token" 401; otherwise it continues with exactly the verified payload |
| Auth.OptionalIdentity | backend/src/middleware/auth.ts:54-64 | an identity is attached only from a non-empty token that verifies, and it is that token's payload; a failing token attaches none |
| Auth.OptionalMatchesRequired | backend/src/middleware/auth.ts:54-68 | the optional guard attaches exactly the identity the required guard continues with, and none exactly where the required guard answers 401 |
| Auth.GenerateToken | backend/src/middleware/auth.ts:73-75 | an issued token is non-empty and verifies, under the same secret, to `{userId, email}` |
| Auth.GuardOnGeneratedToken | backend/src/middleware/auth.ts:36-46 | `Bearer <generated token>` passes `authenticate` with the pair until 30 days after issue, and gets the "Invalid or expired" 401 from then on |
| Auth.GuardRefusesOtherSecret | backend/src/middleware/auth.ts:36-46 | a token generated under another secret always gets the "Invalid or expired" 401 |
| Auth.Authenticate | backend/src/middleware/auth.ts:26-47 | either writes the 401 with `next` not called and `userId`/`userEmail` untouched, or sets both from the payload, calls `next` exactly once and writes nothing |
| Auth.AuthenticateOptional | backend/src/middleware/auth.ts:54-68 | for every header, writes no response and calls `next` exactly once; the identity fields change only when the token verifies |
| Validation.Failing | backend/src/routes/riskRoutes.ts:66-68 | one error per failing rule and only for failing rules; empty exactly when every rule passes |
| Validation.Validate | backend/src/routes/riskRoutes.ts:58-69 | an accepted body has age in [1,150], systolicBP in [50,250], diastolicBP in [30,200] and cholesterol >= 0; a refused one carries a non-empty error list |
| Validation.FailingAppend | backend/src/routes/riskRoutes.ts:58-68 | the errors of a chain are those of its first part followed by those of the rest, so the 400 lists fields in the order the rules are declared |
| Validation.ValidateReportsFailingFields | backend/src/routes/riskRoutes.ts:58-68 | a body is accepted if and only if all six rules pass; a refusal names every failing field and no passing one |
| Validation.ValidateToBody | backend/src/routes/riskRoutes.ts:129-134 | every in-range input is accepted and read back unchanged, boundary values included |
| Validation.RejectsJustOutside | backend/src/routes/riskRoutes.ts:58-63 | age 0 or 151, gender "X", systolicBP 49 or 251, diastolicBP 29 or 201, cholesterol -1 are each named in the errors; so is any string for diabetes, which follows the model's narrowing of `isBoolean` listed under Left out (the library itself accepts "true", "false", "1" and "0") |
| Routes.AssessmentId | backend/src/routes/riskRoutes.ts:35 | an id starts with its prefix and its remainder reads back as the clock value |
| Routes.TempAndGuestIdsDiffer | backend/src/routes/riskRoutes.ts:35 | a `temp-` id never equals a `guest-` id |
| Routes.GetHandler | backend/src/routes/riskRoutes.ts:15-47 | the generator is asked about the default profile only, nothing is stored, the reply succeeds exactly when the generator does, and a failure is the fixed 500 with no data; a success carries no `errors` key, the generator's score and summary and the clock's timestamp, with the personalized message and a `temp-` id when `userId` is truthy and the guest greeting and a `guest-` id otherwise |
| Routes.GetRoute | backend/src/routes/riskRoutes.ts:14-27 | whoever calls, the default profile is assessed, nothing is stored, and the status is 200 or 500 |
| Routes.GetAsGuest | backend/src/routes/riskRoutes.ts:31-35 | without a credential: status 200, the guest message exactly, a `guest-` id |
| Routes.GetAsMember | backend/src/routes/riskRoutes.ts:31-35 | with a live token for a non-empty user id: "Personalized assessment for " + email + ".", a `temp-` id, nothing stored |
| Routes.PostHandler | backend/src/routes/riskRoutes.ts:65-119 | an invalid body gets a 400 with its errors before identity is checked; no user id gets 401 "Unauthorized"; the generator sees only validated input; a record is stored exactly on success, tagged with the caller's id, holding the validated input and the generator's score and summary, and the reply is the 200 "Assessment saved successfully." with that record's data; a valid body from an identified caller with a working generator and store always gets it; a valid body never gets a 400; for a valid body and an identified caller, the fixed 500 with nothing stored comes exactly when the generator or the store fails |
| Routes.GetWithRefusedToken | backend/src/middleware/auth.ts:56-64 | a token `authenticate` would refuse leaves the request a guest's: GET answers as if no header were sent |
| Routes.GetWithExpiredToken | backend/src/middleware/auth.ts:62-63 | an expired token gets GET's guest reply, never a 401 |
| Routes.GetWithEmptyUserId | backend/src/routes/riskRoutes.ts:31-35 | a live token whose user id is empty gets GET's guest greeting and `guest-` id |
| Routes.PostRoute | backend/src/routes/riskRoutes.ts:54-64 | a request the guard halts gets its 401 whatever the body holds, with no generator call and no store write; a stored record carries the verified user id |
| Routes.PostStoresForTokenHolder | backend/src/routes/riskRoutes.ts:90-111 | live token, valid body, working generator and store: exactly the record with the token's user id, the input and the generated result is stored, and the reply id is the store-assigned id |
| Routes.PostEmptyUserIdIsUnauthorized | backend/src/routes/riskRoutes.ts:72-75 | a live token with an empty user id and a valid body gets 401 "Unauthorized", with no generator call and no store write |
| Routes.GuestHandler | backend/src/routes/riskRoutes.ts:136-172 | never stores; invalid bodies get the 400 without a generator call; the generator sees the validated input; for a valid body the reply succeeds exactly when the generator does; success carries the success message and no `errors` key, the generator's score and summary, a `guest-` id and the clock's timestamp; failure is the fixed 500 |
| Routes.GuestAssessesValidInput | backend/src/routes/riskRoutes.ts:126-172 | an in-range input reaches the generator unchanged, and the reply is its assessment under a `guest-` id, or the fixed 500 when it fails |
| Routes.Backend.constructor | backend/src/middleware/auth.ts:19 | the secret is fixed once from the environment, with the default fallback |
| Routes.Backend.Generate | backend/src/routes/riskRoutes.ts:80-87 | one generator call is logged with its input, and the result is the generator's |
| Routes.Backend.Create | backend/src/routes/riskRoutes.ts:90-100 | on success exactly one record is appended, with the store-assigned id and timestamp; on failure the store is unchanged |
| Routes.Backend.HandleGet | backend/src/routes/riskRoutes.ts:15-47 | writes the GET reply, logs one generator call, and leaves the store alone |
| Routes.Backend.GetAssessment | backend/src/routes/riskRoutes.ts:14 | the optional guard then the handler: always answers, `next` called once, one call with the default profile, store unchanged; `userId`/`userEmail` are set from the token's payload when it verifies and are untouched otherwise |
| Routes.Backend.HandlePost | backend/src/routes/riskRoutes.ts:65-119 | writes the handler's reply; the generator log and the store grow exactly by what `PostHandler` gives, the reply read back from the stored record |
| Routes.Backend.PostAssessment | backend/src/routes/riskRoutes.ts:54-120 | guard then handler; the store grows by at most one record, and when it grows the reply data is that last record's; `next` is called exactly once when the guard continues and never when it halts; `userId`/`userEmail` are the verified payload's on continue and untouched on halt |
| Routes.Backend.PostGuest | backend/src/routes/riskRoutes.ts:126-173 | writes the guest reply, logs at most the validated input, and never changes the store |

## Left out

- The cryptography of `jsonwebtoken` is not modelled: no HMAC-SHA256, no base64url, no JSON
  header. The token is a concrete stand-in. It is a list of escaped fields (`userId`, `email`,
  `iat`, `exp`, tag), and the tag is `secret + body`. The model therefore proves round trip,
  expiry and wrong-secret rejection, but makes no claim about unforgeability.
- Tokens minted elsewhere are not modelled. This covers tokens with extra or missing claims,
  `nbf`, other algorithms, and a clock tolerance. The value of `iat` is never compared with the
  clock; the stand-in only requires it to be a decimal.
- `Auth.GenerateToken` states verification at the instant of issue. The full 30-day window is
  stated by `Auth.GuardOnGeneratedToken` and `Jwt.VerifySigned`.
- The AI generator is a function parameter. Its prompt and the model call in `aiService` are
  not part of this model. The response's `riskScore` is assumed to be one of Low, Medium, High.
- The MongoDB store is a sequence append whose outcome is a parameter. Mongoose schema
  validation, `_id` generation and type casting are not modelled. The stored record holds the
  validated, typed input.
- `Date.now()` and `toISOString()` are parameters. One clock reading per request serves both
  the token check and the id.
- express-validator's coercion of strings is not modelled. A body field is a tagged JSON value:
  a number, a string, a boolean, or absent/null. The library would also accept the string `"45"`
  for `isInt`, the strings `"true"`/`"1"` and the numbers 0/1 for `isBoolean`, and numeric
  strings for `isFloat`. The model rejects these, so the accepted set is smaller than the
  library's for such bodies.
- `Validation.FieldError` keeps `path`, `value` and `msg` of an express-validator error entry.
  The constant keys `location: "body"` and, in version 7, `type: "field"` are the same in every
  entry of both 400 replies, so they are left out.
- `Strings.ReplaceFirst` does not expand the `$` patterns of a JavaScript replacement string.
  Its one caller passes the empty replacement, where there is nothing to expand.
- Express plumbing is not modelled. The model has no async/await and no concurrency, and each
  request is one sequential pass. `next()` never throws; the case where it throws inside
  `authenticate`'s `try` (auth.ts:40-41) is not modelled.
- The `console.error` logging is left out.
- The frontend (`Assessment.tsx`, `Home.tsx`, `Progress.tsx`, `Navbar.tsx`, `App.tsx`) is UI
  rendering, routing and local storage, so it is left out. The Low/Medium/High chart mapping is
  left out too.
