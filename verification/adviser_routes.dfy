/**
 * src/app/modules/v1/advisers/routes/adviser.routes.ts: the adviser router's
 * table. `isAdmin` is imported there but no route uses it.
 */
module AdviserRoutes {
  import opened Wrappers
  import opened Tokens
  import opened AuthMiddleware
  import opened Router

  /** The router's paths. */
  datatype Path = RegisterAdviser | QueryPlatformAdviser | GetAdviser | SignIn
  {
    function Text(): string {
      match this
      case RegisterAdviser => "/register-adviser"
      case QueryPlatformAdviser => "/query-platform-adviser"
      case GetAdviser => "/get-adviser/:user_id"
      case SignIn => "/sign-in"
    }
  }

  /** The route registered for each path. */
  function RouteOf(p: Path): (r: Route<Path>)
    ensures r.path == p
  {
    match p
    case RegisterAdviser => Route(POST, p, [VerifyTokenGuard], "AdviserController.registerAdviser")
    case QueryPlatformAdviser => Route(POST, p, [VerifyTokenGuard], "AdviserController.queryPlatformAdviser")
    case GetAdviser => Route(GET, p, [VerifyTokenGuard], "AdviserController.getAdviser")
    case SignIn => Route(POST, p, [], "AdviserController.signIn")
  }

  /** No route of this table checks a role. */
  lemma NoRoleGuards()
    ensures forall p: Path :: IsAdminGuard !in RouteOf(p).guards && IsRootGuard !in RouteOf(p).guards
  {
  }

  /** `/sign-in` is open. */
  lemma SignInOpen(p: Path, authorization: Option<string>, verify: string -> VerifyResult)
    requires p == SignIn
    ensures Dispatch(RouteOf(p), authorization, verify) == Reached(None)
  {
  }

  /** Every other route needs a verified token, of any role, and nothing more. */
  lemma TokenSuffices(p: Path, authorization: Option<string>, verify: string -> VerifyResult)
    requires p != SignIn
    ensures Dispatch(RouteOf(p), authorization, verify).Reached? <==> VerifyToken(authorization, verify).Next?
  {
    assert RouteOf(p).guards == [VerifyTokenGuard];
    TokenOnly(authorization, verify);
  }
}
