/**
 * Properties that span several parts of the system: what an adviser
 * registered through the public handlers can and cannot reach afterwards.
 */
module Flows {
  import opened Wrappers
  import opened Constants
  import opened Dto
  import opened Database
  import opened Tokens
  import opened AuthMiddleware
  import opened AdminMiddleware
  import opened Router
  import opened AdviserServices
  import opened AdviserController
  import AdminRoutes

  /**
   * An adviser registered through any of the three handlers who then sets a
   * password can sign in, and gets a token for the handler's credential
   * type. Presented to the admin router, that token is turned away with 403
   * on every path except the two sign-ins.
   */
  lemma RegisteredAdviserLockedOutOfAdmin(t: Tables, h: Hasher, cfg: JwtConfig, k: RegHandler, body: AdviserBody,
                                          other_names: string, env: RegEnv, password: string,
                                          p: AdminRoutes.Path, authorization: Option<string>,
                                          verify: string -> VerifyResult)
    requires t.Valid() && Sound(h) && body.primary_email.Some?
    requires Handle(t, h, k, body, other_names, [], env).response.Ok?
    requires p !in AdminRoutes.SignInPaths
    ensures var u := body.primary_email.value;
            var t1 := Handle(t, h, k, body, other_names, [], env).tables;
            var t2 := SetDigest(t1, h, u, password, false).tables;
      && SignIn(t2, h, cfg, u, password).Success?
      && SignIn(t2, h, cfg, u, password).data.token.role == KindAttrs(k).credential_type.Name()
    ensures var u := body.primary_email.value;
            var t1 := Handle(t, h, k, body, other_names, [], env).tables;
            var t2 := SetDigest(t1, h, u, password, false).tables;
      VerifyToken(authorization, verify) == Next(SignIn(t2, h, cfg, u, password).data.token) ==>
        Dispatch(AdminRoutes.RouteOf(p), authorization, verify) == Stopped(ForbiddenStatus)
  {
    var regDto := DtoFor(k, body, other_names);
    var a := KindAttrs(k);
    assert Register(t, h, regDto, a, env).result.Success?;
    RegisterThenSignIn(t, h, cfg, regDto, a, env, password);
    var t2 := SetDigest(Register(t, h, regDto, a, env).tables, h, regDto.user_id, password, false).tables;
    if VerifyToken(authorization, verify) == Next(SignIn(t2, h, cfg, regDto.user_id, password).data.token) {
      AdminRoutes.NoAdviserRole(p, authorization, verify, a.credential_type);
    }
  }
}
