/**
 * How an Express router runs a route's middleware chain: each guard either
 * answers the request or passes it on, and the handler is reached only if
 * every guard passes it on. `verifyToken` stores the decoded token on the
 * request; the role guards read `decoded.role`, which throws a TypeError
 * (answered 500 by Express) when no token was decoded before them.
 */
module Router {
  import opened Wrappers
  import opened Tokens
  import opened AuthMiddleware
  import opened AdminMiddleware

  datatype Verb = GET | POST

  datatype Guard = VerifyTokenGuard | IsAdminGuard | IsRootGuard

  /** One `router.get/post(path, ...guards, handler)` line; `P` names the router's paths. */
  datatype Route<P> = Route(verb: Verb, path: P, guards: seq<Guard>, handler: string)

  /** Where a request ends: at the handler (with what `verifyToken` decoded), or answered by a guard. */
  datatype Dispatched = Reached(decoded: Option<Token>) | Stopped(status: int)

  const InternalErrorStatus := 500

  function RoleGuard(g: Guard, role: string): Guarded {
    if g == IsRootGuard then IsRoot(role) else IsAdmin(role)
  }

  /** Run a guard chain; `decoded` is what an earlier `verifyToken` stored. */
  function RunGuards(guards: seq<Guard>, decoded: Option<Token>, authorization: Option<string>,
                     verify: string -> VerifyResult): (d: Dispatched)
    ensures guards == [] ==> d == Reached(decoded)
    ensures d.Reached? && decoded.Some? ==> d.decoded.Some?
  {
    if guards == [] then Reached(decoded)
    else if guards[0] == VerifyTokenGuard then
      match VerifyToken(authorization, verify)
      case Reject(status, _, _) => Stopped(status)
      case Next(token) => RunGuards(guards[1..], Some(token), authorization, verify)
    else if decoded.None? then Stopped(InternalErrorStatus)
    else
      match RoleGuard(guards[0], decoded.value.role)
      case Refuse(status, _) => Stopped(status)
      case Proceed => RunGuards(guards[1..], decoded, authorization, verify)
  }

  /** A request to a route: the chain starts with nothing decoded. */
  function Dispatch<P>(r: Route<P>, authorization: Option<string>, verify: string -> VerifyResult): Dispatched {
    RunGuards(r.guards, None, authorization, verify)
  }

  /** Once a token is decoded, no guard can crash: every answer is 401 or 403. */
  lemma {:induction false} DecodedNeverCrashes(guards: seq<Guard>, token: Token, authorization: Option<string>,
                                               verify: string -> VerifyResult)
    ensures var d := RunGuards(guards, Some(token), authorization, verify);
      d.Stopped? ==> d.status == UnauthorizedStatus || d.status == ForbiddenStatus
  {
    if guards != [] {
      if guards[0] == VerifyTokenGuard {
        match VerifyToken(authorization, verify)
        case Reject(status, _, _) =>
        case Next(t) => DecodedNeverCrashes(guards[1..], t, authorization, verify);
      } else {
        DecodedNeverCrashes(guards[1..], token, authorization, verify);
      }
    }
  }

  /**
   * A chain that starts with `verifyToken` consults roles only for a verified
   * token: it never crashes, and it reaches the handler only with that token.
   */
  lemma VerifyFirstChain(guards: seq<Guard>, authorization: Option<string>, verify: string -> VerifyResult)
    requires guards != [] && guards[0] == VerifyTokenGuard
    ensures var d := RunGuards(guards, None, authorization, verify);
      && (d.Stopped? ==> d.status == UnauthorizedStatus || d.status == ForbiddenStatus)
      && (d.Reached? ==> VerifyToken(authorization, verify).Next? && d.decoded.Some?)
  {
    var v := VerifyToken(authorization, verify);
    if v.Next? {
      DecodedNeverCrashes(guards[1..], v.decoded, authorization, verify);
    }
  }

  /** A role guard placed before `verifyToken` always crashes. */
  lemma RoleGuardFirstCrashes(guards: seq<Guard>, authorization: Option<string>, verify: string -> VerifyResult)
    requires guards != [] && guards[0] != VerifyTokenGuard
    ensures RunGuards(guards, None, authorization, verify) == Stopped(InternalErrorStatus)
  {
  }

  /** `verifyToken` followed by one role guard: the handler is reached exactly for a verified token whose role passes. */
  lemma TokenAndRole(g: Guard, authorization: Option<string>, verify: string -> VerifyResult)
    requires g != VerifyTokenGuard
    ensures var v := VerifyToken(authorization, verify);
      RunGuards([VerifyTokenGuard, g], None, authorization, verify).Reached? <==>
        v.Next? && RoleGuard(g, v.decoded.role).Proceed?
  {
    var v := VerifyToken(authorization, verify);
    if v.Next? {
      assert [VerifyTokenGuard, g][1..] == [g];
      assert [g][1..] == [];
    }
  }

  /** `verifyToken` alone: the handler is reached exactly for a verified token, of any role. */
  lemma TokenOnly(authorization: Option<string>, verify: string -> VerifyResult)
    ensures RunGuards([VerifyTokenGuard], None, authorization, verify).Reached? <==> VerifyToken(authorization, verify).Next?
  {
    assert [VerifyTokenGuard][1..] == [];
  }
}
