/**
 * The admin-only gate: the caller's user document must exist and carry the role
 * "admin" exactly; a missing or empty role is read as "user".
 */
module AdminMiddleware {
  import opened Common
  import opened Store

  /** `userData.role || 'user'`. */
  function EffectiveRole(u: UserDoc): string {
    OrElse(u.role, "user")
  }

  /** `adminMiddleware` given the read of `users/{uid}`. */
  function AdminCheck(read: Lookup<Option<UserDoc>>): (g: Gate<()>)
    ensures g.Next? <==> read.Found? && read.value.Some? && read.value.value.role == Some("admin")
    ensures read.LookupFailed? <==> g == Halt(500, "Failed to verify admin status")
    ensures read == Found(None) <==> g == Halt(404, "User not found")
    ensures read.Found? && read.value.Some? && read.value.value.role != Some("admin") ==>
      g == Halt(403, "Access denied. Admins only.")
  {
    match read
    case LookupFailed(_) => Halt(500, "Failed to verify admin status")
    case Found(None) => Halt(404, "User not found")
    case Found(Some(u)) =>
      if EffectiveRole(u) != "admin" then Halt(403, "Access denied. Admins only.") else Next(())
  }

  /** A user document without a role is a plain user and is refused. */
  lemma MissingRoleIsUser(u: UserDoc)
    requires u.role.None?
    ensures EffectiveRole(u) == "user"
    ensures AdminCheck(Found(Some(u))) == Halt(403, "Access denied. Admins only.")
  {
  }
}
