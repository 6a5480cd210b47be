/**
 * The authentication middleware `requireAuth`: read the session token from the
 * `Authentication` cookie, have the verifier decode it, and either attach the
 * claims to the request and pass control on, or answer 401 or 403.
 */
module Auth {
  import opened Wrappers
  import opened Http

  /**
   * What the token verifier does with a token and the signing secret: return
   * claims, return a falsy value (bad signature, expired), or throw.
   */
  datatype Verified = Decoded(claims: Claims) | Falsy | Threw

  /** The verifier, a call into code outside this model. */
  type Verifier = (string, string) -> Verified

  /** The middleware's verdict: reject with a status and message, or attach claims. */
  datatype Decision = Reject(status: int, message: string) | Attach(claims: Claims)

  /** A cookie value that JavaScript treats as true: present and non-empty. */
  function Truthy(token: Option<string>): (t: bool)
    ensures t <==> token.Some? && |token.value| > 0
  {
    token.Some? && token.value != ""
  }

  /** The decision `requireAuth` takes for a cookie, given the secret and the verifier. */
  function Authenticate(cookie: Option<string>, secret: string, verify: Verifier): (d: Decision)
    ensures d.Reject? ==> d.status == Unauthorized || d.status == Forbidden
    ensures d.Attach? ==> Truthy(cookie) && verify(cookie.value, secret) == Decoded(d.claims)
  {
    if !Truthy(cookie) then Reject(Unauthorized, "Authentication required")
    else
      match verify(cookie.value, secret)
      case Decoded(claims) => Attach(claims)
      case Falsy => Reject(Forbidden, "Invalid or expired token")
      case Threw => Reject(Unauthorized, "Unauthorized")
  }

  /** Without a token the answer is 401, whatever the verifier would have said. */
  lemma MissingTokenRejected(cookie: Option<string>, secret: string, verify: Verifier, other: Verifier)
    requires !Truthy(cookie)
    ensures Authenticate(cookie, secret, verify) == Reject(Unauthorized, "Authentication required")
    ensures Authenticate(cookie, secret, verify) == Authenticate(cookie, secret, other)
  {
  }

  /**
   * The verifier is consulted only on the cookie's token and the configured
   * secret: two verifiers that agree there give the same decision.
   */
  lemma VerifierSeesTokenAndSecret(cookie: Option<string>, secret: string, v1: Verifier, v2: Verifier)
    requires Truthy(cookie)
    requires v1(cookie.value, secret) == v2(cookie.value, secret)
    ensures Authenticate(cookie, secret, v1) == Authenticate(cookie, secret, v2)
  {
  }

  /** With a token, the verifier's answer fixes the decision. */
  lemma TokenOutcomes(cookie: Option<string>, secret: string, verify: Verifier)
    requires Truthy(cookie)
    ensures verify(cookie.value, secret) == Falsy ==>
              Authenticate(cookie, secret, verify) == Reject(Forbidden, "Invalid or expired token")
    ensures verify(cookie.value, secret) == Threw ==>
              Authenticate(cookie, secret, verify) == Reject(Unauthorized, "Unauthorized")
    ensures forall c :: verify(cookie.value, secret) == Decoded(c) ==>
              Authenticate(cookie, secret, verify) == Attach(c)
  {
  }

  /**
   * `requireAuth(req, res, next)` on an exchange. `next` is called inside the
   * `try` block, so a `next` that throws (`nextThrows`) lands in the `catch`
   * and a 401 is written after `next` has already been called.
   */
  method RequireAuth(ex: Exchange, secret: string, verify: Verifier, nextThrows: bool)
    modifies ex
    ensures match Authenticate(ex.cookie, secret, verify)
            case Reject(status, message) =>
              && ex.response == Some(Respond(status, message))
              && ex.user == old(ex.user)
              && ex.nextCalls == old(ex.nextCalls)
            case Attach(claims) =>
              && ex.user == Some(claims)
              && ex.nextCalls == old(ex.nextCalls) + 1
              && ex.response == (if nextThrows then Some(Respond(Unauthorized, "Unauthorized")) else old(ex.response))
    ensures ex.response != old(ex.response) ==> IsRejection(ex.response.value)
    ensures !nextThrows && old(ex.response).None? ==>
              (ex.response.Some? <==> ex.nextCalls == old(ex.nextCalls))
  {
    var token := ex.cookie;
    if !Truthy(token) {
      ex.response := Some(Respond(Unauthorized, "Authentication required"));
      return;
    }
    var decoded := verify(token.value, secret);
    match decoded
    case Threw =>
      ex.response := Some(Respond(Unauthorized, "Unauthorized"));
    case Falsy =>
      ex.response := Some(Respond(Forbidden, "Invalid or expired token"));
    case Decoded(claims) =>
      ex.user := Some(claims);
      ex.nextCalls := ex.nextCalls + 1;
      if nextThrows {
        ex.response := Some(Respond(Unauthorized, "Unauthorized"));
      }
  }
}
