/**
 * src/app/modules/admin/routes/admin.routes.ts: the admin router's table of
 * paths and middleware chains, and the authorization matrix it yields.
 */
module AdminRoutes {
  import opened Wrappers
  import opened Constants
  import opened Tokens
  import opened AuthMiddleware
  import opened AdminMiddleware
  import opened Router

  /** The router's paths. */
  datatype Path =
    | RootSignIn | AdminSignIn | CreateAdmin | UpdateAdminStatus
    | GetAdvisers | UpdateAdviserStatus | GetAdviser | GetEvents | GetEvent
  {
    function Text(): string {
      match this
      case RootSignIn => "/root-sign-in"
      case AdminSignIn => "/admin-sign-in"
      case CreateAdmin => "/create-admin"
      case UpdateAdminStatus => "/update-admin-status"
      case GetAdvisers => "/get-advisers/:page/:limit"
      case UpdateAdviserStatus => "/update-adviser-status"
      case GetAdviser => "/get-adviser/:user_id"
      case GetEvents => "/get-events/:page/:limit"
      case GetEvent => "/get-event/:event_id"
    }
  }

  /** The route registered for each path (each path is registered once). */
  function RouteOf(p: Path): (r: Route<Path>)
    ensures r.path == p
  {
    match p
    case RootSignIn => Route(POST, p, [], "AdminController.rootSignIn")
    case AdminSignIn => Route(POST, p, [], "AdminController.adminSignIn")
    case CreateAdmin => Route(POST, p, [VerifyTokenGuard, IsRootGuard], "AdminController.createAdmin")
    case UpdateAdminStatus => Route(POST, p, [VerifyTokenGuard, IsRootGuard], "AdminController.updateAdminStatus")
    case GetAdvisers => Route(GET, p, [VerifyTokenGuard, IsAdminGuard], "AdminController.getAdvisersWithPaging")
    case UpdateAdviserStatus => Route(POST, p, [VerifyTokenGuard, IsAdminGuard], "AdminController.updateAdviserStatus")
    case GetAdviser => Route(GET, p, [VerifyTokenGuard, IsAdminGuard], "AdminController.getAdviser")
    case GetEvents => Route(GET, p, [VerifyTokenGuard, IsAdminGuard], "AdminController.getEventsWithPaging")
    case GetEvent => Route(GET, p, [VerifyTokenGuard, IsAdminGuard], "AdminController.getEvent")
  }

  const SignInPaths: set<Path> := {RootSignIn, AdminSignIn}
  const RootPaths: set<Path> := {CreateAdmin, UpdateAdminStatus}
  const AdminPaths: set<Path> := {GetAdvisers, UpdateAdviserStatus, GetAdviser, GetEvents, GetEvent}

  /** The role of the token `verifyToken` would decode, if it would decode one. */
  function DecodedRole(authorization: Option<string>, verify: string -> VerifyResult): Option<string> {
    var v := VerifyToken(authorization, verify);
    if v.Next? then Some(v.decoded.role) else None
  }

  /** Every path is a sign-in, a root-only path or an admin path, and its chain is the one its group prescribes. */
  lemma Groups(p: Path)
    ensures p in SignInPaths || p in RootPaths || p in AdminPaths
    ensures p in SignInPaths ==> RouteOf(p).guards == []
    ensures p in RootPaths ==> RouteOf(p).guards == [VerifyTokenGuard, IsRootGuard]
    ensures p in AdminPaths ==> RouteOf(p).guards == [VerifyTokenGuard, IsAdminGuard]
  {
  }

  /** The two sign-ins are open: no token and no role is asked for. */
  lemma SignInsOpen(p: Path, authorization: Option<string>, verify: string -> VerifyResult)
    requires p in SignInPaths
    ensures Dispatch(RouteOf(p), authorization, verify) == Reached(None)
  {
    Groups(p);
  }

  /** `/create-admin` and `/update-admin-status` are reached exactly with a verified root token. */
  lemma RootOnly(p: Path, authorization: Option<string>, verify: string -> VerifyResult)
    requires p in RootPaths
    ensures Dispatch(RouteOf(p), authorization, verify).Reached? <==> DecodedRole(authorization, verify) == Some("root")
  {
    Groups(p);
    TokenAndRole(IsRootGuard, authorization, verify);
  }

  /** The adviser and event routes are reached exactly with a verified admin or root token. */
  lemma AdminOrRoot(p: Path, authorization: Option<string>, verify: string -> VerifyResult)
    requires p in AdminPaths
    ensures Dispatch(RouteOf(p), authorization, verify).Reached? <==>
      DecodedRole(authorization, verify) == Some("admin") || DecodedRole(authorization, verify) == Some("root")
  {
    Groups(p);
    TokenAndRole(IsAdminGuard, authorization, verify);
  }

  /** Every guarded route runs `verifyToken` first, so roles are read only from a verified token. */
  lemma VerifyTokenFirst(p: Path, authorization: Option<string>, verify: string -> VerifyResult)
    requires RouteOf(p).guards != []
    ensures RouteOf(p).guards[0] == VerifyTokenGuard
    ensures var d := Dispatch(RouteOf(p), authorization, verify);
      d.Stopped? ==> d.status == UnauthorizedStatus || d.status == ForbiddenStatus
  {
    Groups(p);
    VerifyFirstChain(RouteOf(p).guards, authorization, verify);
  }

  /** A token carrying an adviser role reaches no admin route but the two sign-ins. */
  lemma NoAdviserRole(p: Path, authorization: Option<string>, verify: string -> VerifyResult, c: CredentialType)
    requires p !in SignInPaths
    requires IsAdviserRole(c) && DecodedRole(authorization, verify) == Some(c.Name())
    ensures Dispatch(RouteOf(p), authorization, verify) == Stopped(ForbiddenStatus)
  {
    Groups(p);
    var v := VerifyToken(authorization, verify);
    AdviserRolesRefused(c);
    var g := RouteOf(p).guards[1];
    assert RouteOf(p).guards == [VerifyTokenGuard, g];
    assert [VerifyTokenGuard, g][1..] == [g];
    assert RoleGuard(g, v.decoded.role) == Refuse(ForbiddenStatus, ForbiddenMessage);
    assert RunGuards([g], Some(v.decoded), authorization, verify) == Stopped(ForbiddenStatus);
  }
}
