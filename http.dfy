/** The request/response surface the middleware and the route handlers share: the JSON
    envelope `{ success, message?, data?, errors? }` with its status code, and the Express
    request object with the fields the guards attach. */
module Http {
  import opened Wrappers
  import opened Validation

  datatype RiskScore = Low | Medium | High

  /** The `data` object of a successful assessment response. */
  datatype Data = Data(id: string, riskScore: RiskScore, summary: string, createdAt: string)

  /** A status code with the JSON body sent by `res.json`; absent keys are `None`. */
  datatype Response = Response(status: nat, success: bool, message: Option<string>,
                               data: Option<Data>, errors: Option<seq<FieldError>>)

  /** `res.json({ success: true, message, data })`, status 200 by default. */
  function Json200(message: string, data: Data): Response {
    Response(200, true, Some(message), Some(data), None)
  }

  /** `res.status(400).json({ success: false, errors })`: no message key. */
  function Status400(errors: seq<FieldError>): Response {
    Response(400, false, None, None, Some(errors))
  }

  /** `res.status(401).json({ success: false, message })`. */
  function Status401(message: string): Response {
    Response(401, false, Some(message), None, None)
  }

  /** `res.status(500).json({ success: false, message })`. */
  function Status500(message: string): Response {
    Response(500, false, Some(message), None, None)
  }

  /** JavaScript truthiness of a possibly-undefined string: present and not empty. */
  predicate Truthy(s: Option<string>) {
    s.Some? && s.value != ""
  }

  /** One request as it travels the middleware chain. `response` is what was written to the
      paired Express response object; `nextCalls` counts the calls to `next()`. */
  class Request {
    const authorization: Option<string>
    const body: Body
    var userId: Option<string>
    var userEmail: Option<string>
    var nextCalls: nat
    var response: Option<Response>

    constructor (authorization: Option<string>, body: Body)
      ensures this.authorization == authorization && this.body == body
      ensures userId == None && userEmail == None
      ensures nextCalls == 0 && response == None
    {
      this.authorization := authorization;
      this.body := body;
      userId, userEmail := None, None;
      nextCalls, response := 0, None;
    }

    /** `next()`: hands the request to the next stage. */
    method Next()
      modifies this`nextCalls
      ensures nextCalls == old(nextCalls) + 1
    {
      nextCalls := nextCalls + 1;
    }

    /** `res.status(..).json(..)`. */
    method Send(r: Response)
      modifies this`response
      ensures response == Some(r)
    {
      response := Some(r);
    }
  }
}
