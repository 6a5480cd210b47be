/**
 * Properties of the registered route table: which routes need a session or a
 * role, and what a request must satisfy for each route's controller to run.
 */
module RouteTable {
  import opened Wrappers
  import opened Http
  import Auth
  import opened Routes

  function Key(r: Route): (Verb, string) {
    (r.verb, r.path)
  }

  /** A route whose chain starts with `requireAuth`. */
  predicate Protected(r: Route) {
    |r.chain| >= 1 && r.chain[0] == AuthMiddleware
  }

  /** A route whose chain holds the `PaymentAdmin` gate. */
  predicate AdminOnly(r: Route) {
    RoleGate(PaymentAdmin) in r.chain
  }

  /** The (method, path) pairs that need a valid session. */
  const AuthRequired: set<(Verb, string)> :=
    { (Get, "/user/profile"), (Post, "/user/logout"),
      (Post, "/event/create"), (Put, "/event/update/:eventId"), (Get, "/event/my-events"),
      (Post, "/event/register/:eventId"), (Get, "/event/registered-events"),
      (Post, "/Upload-Payment-Info"), (Get, "/View-All-Payments"),
      (Put, "/Update-Payment-Status/:paymentId") }

  /** The (method, path) pairs that need the `PaymentAdmin` role as well. */
  const AdminRequired: set<(Verb, string)> :=
    { (Get, "/View-All-Payments"), (Put, "/Update-Payment-Status/:paymentId") }

  /** The four chain shapes the table uses. */
  predicate Bare(r: Route) {
    |r.chain| == 1 && r.chain[0].Controller?
  }

  predicate AuthThenController(r: Route) {
    |r.chain| == 2 && r.chain[0] == AuthMiddleware && r.chain[1].Controller?
  }

  predicate AuthUploadThenController(r: Route) {
    |r.chain| == 3 && r.chain[0] == AuthMiddleware && r.chain[1] == Upload("screenshot") && r.chain[2].Controller?
  }

  predicate AuthGateThenController(r: Route) {
    |r.chain| == 3 && r.chain[0] == AuthMiddleware && r.chain[1] == RoleGate(PaymentAdmin) && r.chain[2].Controller?
  }

  predicate WellShaped(r: Route) {
    Bare(r) || AuthThenController(r) || AuthUploadThenController(r) || AuthGateThenController(r)
  }

  /**
   * What a request must satisfy for a route's controller to run, stated
   * without running the chain: on a protected route the token authenticates,
   * the claims carry every role a gate of the route asks for, and multer
   * accepts the upload if the route has one.
   */
  predicate Admitted(r: Route, x: ReqState, env: Env) {
    !Protected(r) ||
    match Auth.Authenticate(x.cookie, env.secret, env.verify)
    case Reject(_, _) => false
    case Attach(claims) =>
      && (forall k :: 0 <= k < |r.chain| && r.chain[k].RoleGate? ==> claims.role == Some(r.chain[k].role))
      && (forall k :: 0 <= k < |r.chain| && r.chain[k].Upload? ==> env.uploadAccepts)
  }

  /** The controller is the last handler; it runs when the whole chain was started. */
  predicate ControllerReached(r: Route, x: ReqState, env: Env) {
    Run(r.chain, x, env).ran == |r.chain|
  }

  /** Every route of the table has one of the four shapes. */
  lemma TableWellShaped()
    ensures forall i :: 0 <= i < |Table()| ==> WellShaped(Table()[i])
  {
    assert forall r :: r in UserRoutes() ==> WellShaped(r);
    assert forall r :: r in CollegeRoutes() ==> WellShaped(r);
    assert forall r :: r in EventRoutes() ==> WellShaped(r);
    assert forall r :: r in PaymentRoutes() ==> WellShaped(r);
    assert forall i :: 0 <= i < |Table()| ==> Table()[i] in Table();
  }

  /** Within `routes`, protection and the admin gate are exactly as the two lists say. */
  predicate ListsMatch(routes: seq<Route>) {
    forall r :: r in routes ==>
      && (Protected(r) <==> Key(r) in AuthRequired)
      && (AdminOnly(r) <==> Key(r) in AdminRequired)
  }

  lemma UserRoutesMatch() ensures ListsMatch(UserRoutes()) {}
  lemma CollegeRoutesMatch() ensures ListsMatch(CollegeRoutes()) {}
  lemma EventRoutesMatch() ensures ListsMatch(EventRoutes()) {}
  lemma PaymentRoutesMatch() ensures ListsMatch(PaymentRoutes()) {}

  lemma TableMatches()
    ensures forall i :: 0 <= i < |Table()| ==>
              && (Protected(Table()[i]) <==> Key(Table()[i]) in AuthRequired)
              && (AdminOnly(Table()[i]) <==> Key(Table()[i]) in AdminRequired)
  {
    UserRoutesMatch();
    CollegeRoutesMatch();
    EventRoutesMatch();
    PaymentRoutesMatch();
    var t := Table();
    forall i | 0 <= i < |t|
      ensures (Protected(t[i]) <==> Key(t[i]) in AuthRequired) && (AdminOnly(t[i]) <==> Key(t[i]) in AdminRequired)
    {
      assert t[i] in t;
    }
  }

  /** A route needs a session exactly when it is one of the listed ones: the first half of `TableMatches`. */
  lemma AuthRequiredExactly()
    ensures forall i :: 0 <= i < |Table()| ==> (Protected(Table()[i]) <==> Key(Table()[i]) in AuthRequired)
  {
    TableMatches();
  }

  /** A route holds the admin gate exactly when it is one of the two payment-admin routes: the second half of `TableMatches`, plus the inclusion of the admin pairs in the session pairs. */
  lemma AdminRequiredExactly()
    ensures forall i :: 0 <= i < |Table()| ==> (AdminOnly(Table()[i]) <==> Key(Table()[i]) in AdminRequired)
    ensures AdminRequired <= AuthRequired
  {
    TableMatches();
  }

  /** Every listed (method, path) pair is registered. */
  lemma AuthRequiredAllRegistered()
    ensures AuthRequired <= set r | r in Table() :: Key(r)
  {
    var t := Table();
    assert t[2] in t && t[3] in t && t[12] in t && t[14] in t && t[15] in t;
    assert t[16] in t && t[17] in t && t[18] in t && t[19] in t && t[20] in t;
    assert AuthRequired == { Key(t[2]), Key(t[3]), Key(t[12]), Key(t[14]), Key(t[15]),
                             Key(t[16]), Key(t[17]), Key(t[18]), Key(t[19]), Key(t[20]) };
  }

  /** No (method, path) pair is registered twice. */
  lemma KeysAreUnique()
    ensures forall i, j :: 0 <= i < j < |Table()| ==> Key(Table()[i]) != Key(Table()[j])
  {
  }

  /** For each chain shape, the controller runs exactly when the request is admitted. */
  lemma WellShapedReachedIffAdmitted(r: Route, x: ReqState, env: Env)
    requires WellShaped(r)
    ensures ControllerReached(r, x, env) <==> Admitted(r, x, env)
  {
    var c := r.chain;
    if !Bare(r) {
      assert c[1..][0] == c[1];
      var s := Step(AuthMiddleware, x, env);
      if AuthThenController(r) {
        assert c[1..][1..] == [];
      } else {
        assert c[1..][1..][0] == c[2] && c[1..][1..][1..] == [];
        match Auth.Authenticate(x.cookie, env.secret, env.verify)
        case Reject(_, _) =>
        case Attach(claims) =>
          if AuthGateThenController(r) {
            assert forall k :: 0 <= k < |c| && c[k].RoleGate? ==> k == 1;
            assert forall k :: 0 <= k < |c| ==> !c[k].Upload?;
            var g := Step(c[1], s.state, env);
            assert g.kind == Passed <==> claims.role == Some(PaymentAdmin);
            assert Admitted(r, x, env) <==> claims.role == Some(c[1].role);
            var o1 := Run(c[1..], s.state, env);
            assert Run(c, x, env).ran == o1.ran + 1;
            if g.kind == Passed {
              assert o1.ran == Run(c[1..][1..], g.state, env).ran + 1 == 2;
            } else {
              assert o1.ran == 1;
            }
          } else {
            assert forall k :: 0 <= k < |c| ==> !c[k].RoleGate?;
          }
      }
    }
  }

  /**
   * On every registered route the controller runs exactly when the request
   * is admitted: no controller of a protected route runs without a token the
   * verifier accepts, nor on an admin route without the exact role.
   */
  lemma ControllerReachedIffAdmitted(i: nat, x: ReqState, env: Env)
    requires i < |Table()|
    ensures ControllerReached(Table()[i], x, env) <==> Admitted(Table()[i], x, env)
  {
    TableWellShaped();
    WellShapedReachedIffAdmitted(Table()[i], x, env);
  }

  /** On a chain that starts with `requireAuth`, no later handler runs unless the token authenticates. */
  lemma LaterHandlersNeedAuth(chain: seq<Handler>, x: ReqState, env: Env, k: nat)
    requires |chain| >= 1 && chain[0] == AuthMiddleware
    requires 0 < k < Run(chain, x, env).ran
    ensures Auth.Authenticate(x.cookie, env.secret, env.verify).Attach?
  {
    HandlerRunsIffPrefixPassed(chain, x, env, k);
    assert chain[..k][0] == AuthMiddleware;
  }

  /**
   * A handler after `requireAuth` sees `req.user` set to the claims: the gate
   * never reads an undefined user, and multer runs only for an authenticated
   * request.
   */
  lemma UserSetBeforeLaterHandlers(chain: seq<Handler>, x: ReqState, env: Env, k: nat)
    requires |chain| >= 1 && chain[0] == AuthMiddleware
    requires 0 < k < |chain|
    requires forall j :: 0 < j < k ==> chain[j] != AuthMiddleware
    requires Run(chain[..k], x, env).kind == Passed
    ensures Run(chain[..k], x, env).state.user == Some(Auth.Authenticate(x.cookie, env.secret, env.verify).claims)
  {
    var a := Auth.Authenticate(x.cookie, env.secret, env.verify);
    assert chain[..k][0] == AuthMiddleware;
    assert a.Attach?;
    UserKept(chain[..k][1..], x.(user := Some(a.claims)), env);
  }

  /** Handlers other than `requireAuth` leave `req.user` alone. */
  lemma {:induction false} UserKept(chain: seq<Handler>, x: ReqState, env: Env)
    requires forall j :: 0 <= j < |chain| ==> chain[j] != AuthMiddleware
    ensures Run(chain, x, env).state.user == x.user
    decreases |chain|
  {
    if chain != [] {
      var s := Step(chain[0], x, env);
      if s.kind == Passed {
        UserKept(chain[1..], s.state, env);
      }
    }
  }

  /** A request without the cookie gets the events list but not its own events. */
  lemma PublicAndPrivateEvents(x: ReqState, env: Env)
    requires x.cookie == None
    ensures Key(Table()[13]) == (Get, "/event/all") && ControllerReached(Table()[13], x, env)
    ensures Key(Table()[15]) == (Get, "/event/my-events")
    ensures Run(Table()[15].chain, x, env) ==
              Outcome(Halted, x.(response := Some(Respond(Unauthorized, "Authentication required"))), 1)
  {
    assert Table()[13] == Route(Get, "/event/all", [Controller("getAllEvents")]);
    assert Table()[15] == Route(Get, "/event/my-events", [AuthMiddleware, Controller("getMyEvents")]);
  }
}
