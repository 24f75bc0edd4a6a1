/**
 * src/app/middleware/adminMiddleware.ts: the two role guards. Each reads
 * the role of the token `verifyToken` decoded and either passes the request
 * on (`next()`) or answers 403.
 */
module AdminMiddleware {
  import opened Constants

  const ForbiddenStatus := 403
  const ForbiddenMessage := "You are not authorized to perform this action"

  /** What a role guard does with a request: pass it on, or answer it. */
  datatype Guarded = Proceed | Refuse(status: int, message: string)

  /** `isAdmin`: admins and root only. */
  function IsAdmin(role: string): (g: Guarded)
    ensures g.Proceed? <==> role == "admin" || role == "root"
    ensures g.Refuse? ==> g == Refuse(ForbiddenStatus, ForbiddenMessage)
  {
    if role != "admin" && role != "root" then Refuse(ForbiddenStatus, ForbiddenMessage) else Proceed
  }

  /** `isRoot`: root only. */
  function IsRoot(role: string): (g: Guarded)
    ensures g.Proceed? <==> role == "root"
    ensures g.Refuse? ==> g == Refuse(ForbiddenStatus, ForbiddenMessage)
  {
    if role != "root" then Refuse(ForbiddenStatus, ForbiddenMessage) else Proceed
  }

  /** `isRoot` is the stricter guard: whatever it lets through, `isAdmin` lets through. */
  lemma RootPassesAdmin(role: string)
    ensures IsRoot(role).Proceed? ==> IsAdmin(role).Proceed?
    ensures IsAdmin("admin").Proceed? && IsRoot("admin").Refuse?
  {
  }

  /** No adviser credential type passes either guard. */
  lemma AdviserRolesRefused(c: CredentialType)
    requires IsAdviserRole(c)
    ensures IsAdmin(c.Name()).Refuse? && IsRoot(c.Name()).Refuse?
  {
  }
}
