/**
 * The route table: each (method, path) is registered with a chain of handlers
 * that Express runs in order, each one either calling `next` or answering. The
 * chain is modelled by `Run`, a function over the request state, and by
 * `Execute`, the loop that drives the handlers over an `Exchange`.
 */
module Routes {
  import opened Wrappers
  import opened Http
  import Auth

  datatype Verb = Get | Post | Put | Delete

  /**
   * A handler in a chain: the authentication middleware `requireAuth`, the inline role gate,
   * multer's `upload.single(field)`, or a controller (outside this model, known
   * by name).
   */
  datatype Handler = AuthMiddleware | RoleGate(role: string) | Upload(field: string) | Controller(name: string)

  datatype Route = Route(verb: Verb, path: string, chain: seq<Handler>)

  /** The only role the inline gates accept. */
  const PaymentAdmin: string := "PaymentAdmin"

  /** The routes for user accounts, in registration order. */
  function UserRoutes(): (routes: seq<Route>)
    ensures |routes| == 8
  {
    [ Route(Post, "/user/signup", [Controller("signupUser")]),
      Route(Post, "/user/login", [Controller("loginUser")]),
      Route(Get, "/user/profile", [AuthMiddleware, Controller("getProfile")]),
      Route(Post, "/user/logout", [AuthMiddleware, Controller("logoutUser")]),
      Route(Get, "/verify", [Controller("verifyEmail")]),
      Route(Get, "/resend-email", [Controller("resendEmail")]),
      Route(Post, "/forgot-password", [Controller("forgotPassword")]),
      Route(Post, "/reset-password", [Controller("resetPassword")])
    ]
  }

  /** The routes for colleges, in registration order. */
  function CollegeRoutes(): (routes: seq<Route>)
    ensures |routes| == 4
  {
    [ Route(Post, "/college/create", [Controller("createCollege")]),
      Route(Get, "/college/all", [Controller("getAllColleges")]),
      Route(Put, "/college/update/:id", [Controller("updateCollege")]),
      Route(Delete, "/college/delete/:id", [Controller("deleteCollege")])
    ]
  }

  /** The routes for events and registrations, in registration order. */
  function EventRoutes(): (routes: seq<Route>)
    ensures |routes| == 6
  {
    [ Route(Post, "/event/create", [AuthMiddleware, Controller("createEvent")]),
      Route(Get, "/event/all", [Controller("getAllEvents")]),
      Route(Put, "/event/update/:eventId", [AuthMiddleware, Controller("updateEvent")]),
      Route(Get, "/event/my-events", [AuthMiddleware, Controller("getMyEvents")]),
      Route(Post, "/event/register/:eventId", [AuthMiddleware, Controller("registerEvent")]),
      Route(Get, "/event/registered-events", [AuthMiddleware, Controller("getRegisteredEvents")])
    ]
  }

  /** The routes for payments, in registration order. */
  function PaymentRoutes(): (routes: seq<Route>)
    ensures |routes| == 3
  {
    [ Route(Post, "/Upload-Payment-Info", [AuthMiddleware, Upload("screenshot"), Controller("uploadPaymentInfo")]),
      Route(Get, "/View-All-Payments", [AuthMiddleware, RoleGate(PaymentAdmin), Controller("viewAllPayments")]),
      Route(Put, "/Update-Payment-Status/:paymentId", [AuthMiddleware, RoleGate(PaymentAdmin), Controller("updatePaymentStatus")])
    ]
  }

  /** The routes in the order they are registered. */
  function Table(): (routes: seq<Route>)
    ensures |routes| == 21
  {
    UserRoutes() + CollegeRoutes() + EventRoutes() + PaymentRoutes()
  }

  /** The express router: registrations are appended in program order. */
  class Router {
    var routes: seq<Route>

    constructor ()
      ensures routes == []
    {
      routes := [];
    }

    /** `router.get/post/put/delete(path, ...handlers)`; the route always has at least one handler. */
    method Register(verb: Verb, path: string, chain: seq<Handler>)
      requires |chain| >= 1
      modifies this
      ensures routes == old(routes) + [Route(verb, path, chain)]
    {
      routes := routes + [Route(verb, path, chain)];
    }
  }

  method RegisterUserRoutes(router: Router)
    modifies router
    ensures router.routes == old(router.routes) + UserRoutes()
  {
    router.Register(Post, "/user/signup", [Controller("signupUser")]);
    router.Register(Post, "/user/login", [Controller("loginUser")]);
    router.Register(Get, "/user/profile", [AuthMiddleware, Controller("getProfile")]);
    router.Register(Post, "/user/logout", [AuthMiddleware, Controller("logoutUser")]);
    router.Register(Get, "/verify", [Controller("verifyEmail")]);
    router.Register(Get, "/resend-email", [Controller("resendEmail")]);
    router.Register(Post, "/forgot-password", [Controller("forgotPassword")]);
    router.Register(Post, "/reset-password", [Controller("resetPassword")]);
  }

  method RegisterCollegeRoutes(router: Router)
    modifies router
    ensures router.routes == old(router.routes) + CollegeRoutes()
  {
    router.Register(Post, "/college/create", [Controller("createCollege")]);
    router.Register(Get, "/college/all", [Controller("getAllColleges")]);
    router.Register(Put, "/college/update/:id", [Controller("updateCollege")]);
    router.Register(Delete, "/college/delete/:id", [Controller("deleteCollege")]);
  }

  method RegisterEventRoutes(router: Router)
    modifies router
    ensures router.routes == old(router.routes) + EventRoutes()
  {
    router.Register(Post, "/event/create", [AuthMiddleware, Controller("createEvent")]);
    router.Register(Get, "/event/all", [Controller("getAllEvents")]);
    router.Register(Put, "/event/update/:eventId", [AuthMiddleware, Controller("updateEvent")]);
    router.Register(Get, "/event/my-events", [AuthMiddleware, Controller("getMyEvents")]);
    router.Register(Post, "/event/register/:eventId", [AuthMiddleware, Controller("registerEvent")]);
    router.Register(Get, "/event/registered-events", [AuthMiddleware, Controller("getRegisteredEvents")]);
  }

  method RegisterPaymentRoutes(router: Router)
    modifies router
    ensures router.routes == old(router.routes) + PaymentRoutes()
  {
    router.Register(Post, "/Upload-Payment-Info", [AuthMiddleware, Upload("screenshot"), Controller("uploadPaymentInfo")]);
    router.Register(Get, "/View-All-Payments", [AuthMiddleware, RoleGate(PaymentAdmin), Controller("viewAllPayments")]);
    router.Register(Put, "/Update-Payment-Status/:paymentId", [AuthMiddleware, RoleGate(PaymentAdmin), Controller("updatePaymentStatus")]);
  }

  /** Builds the router one registration at a time, as the module body does. */
  method BuildRouter() returns (router: Router)
    ensures fresh(router)
    ensures router.routes == Table()
  {
    router := new Router();
    RegisterUserRoutes(router);
    RegisterCollegeRoutes(router);
    RegisterEventRoutes(router);
    RegisterPaymentRoutes(router);
  }

  // ---------------------------------------------------------------------------
  // The role gate

  /** What the inline gate does: pass, answer 403, or throw on a missing `req.user`. */
  datatype GateVerdict = Allow | Deny | Raise

  /** `req.user.role !== role` decides; reading `.role` of an undefined user throws. */
  function Gate(user: Option<Claims>, role: string): (v: GateVerdict)
    ensures v == Raise <==> user.None?
  {
    match user
    case None => Raise
    case Some(claims) => if claims.role == Some(role) then Allow else Deny
  }

  /** The match is exact and case-sensitive, with no hierarchy among roles. */
  lemma GateIsExactMatch(claims: Claims, role: string)
    ensures Gate(Some(claims), role) == Allow <==> claims.role == Some(role)
    ensures Gate(Some(claims), role) != Allow ==> Gate(Some(claims), role) == Deny
    ensures Gate(Some(Claims(claims.id, Some("paymentadmin"))), PaymentAdmin) == Deny
    ensures Gate(Some(Claims(claims.id, Some("Admin"))), PaymentAdmin) == Deny
    ensures Gate(Some(Claims(claims.id, None)), PaymentAdmin) == Deny
  {
  }

  /** The inline closure `(req, res, next) => { if (req.user.role !== role) ...; next(); }`. */
  method RoleGateHandler(ex: Exchange, role: string) returns (raised: bool)
    modifies ex
    ensures raised <==> Gate(old(ex.user), role) == Raise
    ensures ex.user == old(ex.user)
    ensures Gate(old(ex.user), role) == Deny ==>
              ex.response == Some(Respond(Forbidden, "Access denied")) && ex.nextCalls == old(ex.nextCalls)
    ensures Gate(old(ex.user), role) == Allow ==>
              ex.response == old(ex.response) && ex.nextCalls == old(ex.nextCalls) + 1
    ensures raised ==> ex.response == old(ex.response) && ex.nextCalls == old(ex.nextCalls)
  {
    if ex.user.None? {
      return true;
    }
    raised := false;
    if ex.user.value.role != Some(role) {
      ex.response := Some(Respond(Forbidden, "Access denied"));
      return;
    }
    ex.nextCalls := ex.nextCalls + 1;
  }

  // ---------------------------------------------------------------------------
  // Running a chain

  /**
   * How a handler, or a whole chain, ended: it called `next` (Passed), it
   * answered without calling `next` (Halted), or it threw or passed an error
   * to `next`, which skips to Express's error handler (Faulted).
   */
  datatype Kind = Passed | Halted | Faulted

  datatype StepResult = StepResult(kind: Kind, state: ReqState)

  /** `ran` is how many handlers of the chain were started. */
  datatype Outcome = Outcome(kind: Kind, state: ReqState, ran: nat)

  /**
   * What the world outside the model decides: the signing secret, the token
   * verifier, and whether multer accepts the multipart body.
   */
  datatype Env = Env(secret: string, verify: Auth.Verifier, uploadAccepts: bool)

  /** One handler on the request state. Controllers answer; their effects are not modelled. */
  function Step(h: Handler, x: ReqState, env: Env): (r: StepResult)
    ensures r.state.cookie == x.cookie
    ensures r.kind != Halted ==> r.state.response == x.response
    ensures r.state.response != x.response ==> r.kind == Halted && r.state.response.Some? && IsRejection(r.state.response.value)
    ensures h != AuthMiddleware ==> r.state.user == x.user
    ensures h == AuthMiddleware ==> (r.kind == Passed <==> Auth.Authenticate(x.cookie, env.secret, env.verify).Attach?)
    ensures h.Controller? ==> r == StepResult(Halted, x)
  {
    match h
    case AuthMiddleware =>
      (match Auth.Authenticate(x.cookie, env.secret, env.verify)
       case Reject(status, message) => StepResult(Halted, x.(response := Some(Respond(status, message))))
       case Attach(claims) => StepResult(Passed, x.(user := Some(claims))))
    case RoleGate(role) =>
      (match Gate(x.user, role)
       case Raise => StepResult(Faulted, x)
       case Deny => StepResult(Halted, x.(response := Some(Respond(Forbidden, "Access denied"))))
       case Allow => StepResult(Passed, x))
    case Upload(_) => if env.uploadAccepts then StepResult(Passed, x) else StepResult(Faulted, x)
    case Controller(_) => StepResult(Halted, x)
  }

  /** The chain run in order, stopping at the first handler that does not call `next`. */
  function Run(chain: seq<Handler>, x: ReqState, env: Env): (o: Outcome)
    ensures o.ran <= |chain|
    ensures chain != [] ==> o.ran >= 1
    ensures o.kind == Passed ==> o.ran == |chain|
    decreases |chain|
  {
    if chain == [] then Outcome(Passed, x, 0)
    else
      var s := Step(chain[0], x, env);
      if s.kind == Passed then
        var o := Run(chain[1..], s.state, env);
        o.(ran := o.ran + 1)
      else Outcome(s.kind, s.state, 1)
  }

  /** Running `a + b` runs `a`, and then `b` only if every handler of `a` passed. */
  lemma {:induction false} RunAppend(a: seq<Handler>, b: seq<Handler>, x: ReqState, env: Env)
    ensures Run(a + b, x, env) ==
              var o := Run(a, x, env);
              if o.kind == Passed then
                var p := Run(b, o.state, env);
                p.(ran := |a| + p.ran)
              else o
    decreases |a|
  {
    if a == [] {
      assert a + b == b;
    } else {
      assert (a + b)[0] == a[0] && (a + b)[1..] == a[1..] + b;
      var s := Step(a[0], x, env);
      if s.kind == Passed {
        RunAppend(a[1..], b, s.state, env);
      }
    }
  }

  /** Handler `k` starts exactly when every handler before it called `next`. */
  lemma HandlerRunsIffPrefixPassed(chain: seq<Handler>, x: ReqState, env: Env, k: nat)
    requires k < |chain|
    ensures k < Run(chain, x, env).ran <==> Run(chain[..k], x, env).kind == Passed
  {
    assert chain == chain[..k] + chain[k..];
    RunAppend(chain[..k], chain[k..], x, env);
  }

  /**
   * A response the chain writes itself (controllers aside) is a rejection:
   * 401 or 403, with the same code in the body.
   */
  lemma {:induction false} ChainWritesOnlyRejections(chain: seq<Handler>, x: ReqState, env: Env)
    ensures var o := Run(chain, x, env);
            o.state.response == x.response || (o.state.response.Some? && IsRejection(o.state.response.value))
    decreases |chain|
  {
    if chain != [] {
      var s := Step(chain[0], x, env);
      assert s.state.response == x.response || (s.state.response.Some? && IsRejection(s.state.response.value));
      if s.kind == Passed {
        assert s.state.response == x.response;
        ChainWritesOnlyRejections(chain[1..], s.state, env);
      }
    }
  }

  /** One handler on an exchange; `raised` reports a Faulted step. */
  method Dispatch(ex: Exchange, h: Handler, env: Env) returns (raised: bool)
    modifies ex
    ensures var s := Step(h, old(ex.State()), env);
            && ex.State() == s.state
            && (raised <==> s.kind == Faulted)
            && ex.nextCalls == old(ex.nextCalls) + (if s.kind == Passed then 1 else 0)
  {
    match h
    case AuthMiddleware =>
      Auth.RequireAuth(ex, env.secret, env.verify, false);
      raised := false;
    case RoleGate(role) =>
      raised := RoleGateHandler(ex, role);
    case Upload(_) =>
      raised := !env.uploadAccepts;
      if env.uploadAccepts {
        ex.nextCalls := ex.nextCalls + 1;
      }
    case Controller(_) =>
      raised := false;
  }

  /** Express's handling of one route: call the handlers in order until one does not call `next`. */
  method Execute(ex: Exchange, chain: seq<Handler>, env: Env) returns (kind: Kind, ran: nat)
    modifies ex
    ensures Run(chain, old(ex.State()), env) == Outcome(kind, ex.State(), ran)
    ensures ex.nextCalls == old(ex.nextCalls) + (if kind == Passed then ran else ran - 1)
  {
    ghost var start := ex.State();
    var i := 0;
    while i < |chain|
      invariant 0 <= i <= |chain|
      invariant Run(chain, start, env) ==
                  var o := Run(chain[i..], ex.State(), env);
                  o.(ran := i + o.ran)
      invariant ex.nextCalls == old(ex.nextCalls) + i
    {
      assert chain[i..][0] == chain[i] && chain[i..][1..] == chain[i + 1..];
      var before := ex.nextCalls;
      var raised := Dispatch(ex, chain[i], env);
      if raised {
        return Faulted, i + 1;
      }
      if ex.nextCalls == before {
        return Halted, i + 1;
      }
      i := i + 1;
    }
    kind, ran := Passed, |chain|;
  }
}

