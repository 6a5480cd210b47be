/**
 * The slice of an Express request/response pair that the middleware reads and
 * writes: the `Authentication` cookie, `req.user`, the status and JSON body set
 * through `res.status(code).json(body)`, and the calls made to `next`.
 */
module Http {
  import opened Wrappers

  /** 401, "Unauthorized" (section 15.5.2 of RFC 9110). */
  const Unauthorized: int := 401
  /** 403, "Forbidden" (section 15.5.4 of RFC 9110). */
  const Forbidden: int := 403

  /**
   * The decoded token claims that `req.user` holds. `role` is `None` when the
   * claims carry no role, or one that is not a string.
   */
  datatype Claims = Claims(id: string, role: Option<string>)

  /** `standardResponse(status, message)`: the JSON body of every rejection. */
  datatype Body = StandardBody(status: int, message: string)

  /** A response written with `res.status(status).json(body)`. */
  datatype Response = Response(status: int, body: Body)

  /** `res.status(code).json(standardResponse(code, message))`. */
  function Respond(code: int, message: string): (r: Response)
    ensures r.body.status == r.status == code && r.body.message == message
    ensures IsRejection(r) <==> code == Unauthorized || code == Forbidden
  {
    Response(code, StandardBody(code, message))
  }

  /** A rejection as the middleware writes it: status 401 or 403, echoed in the body. */
  predicate IsRejection(r: Response) {
    (r.status == Unauthorized || r.status == Forbidden) && r.body.status == r.status
  }

  /** The value of an exchange that the middleware chain can observe. */
  datatype ReqState = ReqState(cookie: Option<string>, user: Option<Claims>, response: Option<Response>)

  /** One request and its response, as the handlers of a route share them. */
  class Exchange {
    /** `req.cookies?.Authentication`; `None` when there is no such cookie. */
    const cookie: Option<string>
    /** `req.user`. */
    var user: Option<Claims>
    /** The response written so far, if any. */
    var response: Option<Response>
    /** How many times `next` has been called. */
    var nextCalls: nat

    constructor (cookie: Option<string>)
      ensures this.cookie == cookie && user == None && response == None && nextCalls == 0
    {
      this.cookie := cookie;
      user := None;
      response := None;
      nextCalls := 0;
    }

    function State(): ReqState
      reads this
    {
      ReqState(cookie, user, response)
    }
  }
}
