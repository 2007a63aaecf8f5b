/** How an Express middleware ends, and the permission gate
    `requirePermission`. */
module Middleware {

  /** Exactly one of: `sendError(res, message, status)`, or `next()`. */
  datatype Outcome = SendError(status: int, message: string) | Next
}

module PermissionMiddleware {
  import opened Values
  import opened Permissions
  import opened Middleware
  import Messages

  /** `requirePermission(...permissions)` applied to a request whose
      `userRole` is `role`. */
  function RequirePermission(permissions: seq<Permission>, role: Option<Role>): (o: Outcome)
    ensures role.None? ==> o == SendError(401, "Unauthorized access")
    ensures o == Next <==>
      role.Some? && exists i :: 0 <= i < |permissions| && HasPermission(role.value, permissions[i])
    ensures role.Some? && o != Next ==> o == SendError(403, "Forbidden: Insufficient permissions")
  {
    if role.None? then SendError(401, Messages.Unauthorized)
    else if !CheckMultiplePermissions(role.value, permissions) then SendError(403, Messages.Forbidden)
    else Next
  }

  /** With no permissions listed, every request is turned away. */
  lemma EmptyListRejects(role: Option<Role>)
    ensures RequirePermission([], role) != Next
    ensures role.Some? ==> RequirePermission([], role).status == 403
  {
  }

  /** Listing `public` lets every request with a role through. */
  lemma PublicAdmitsAnyRole(permissions: seq<Permission>, role: Role)
    requires PublicPerm in permissions
    ensures RequirePermission(permissions, Some(role)) == Next
  {
    var i :| 0 <= i < |permissions| && permissions[i] == PublicPerm;
    assert HasPermission(role, permissions[i]);
  }

  /** The gate is monotone in the role's rank: whatever lets a role through
      lets every higher-ranked role through. */
  lemma GateMonotone(permissions: seq<Permission>, r1: Role, r2: Role)
    requires Rank(r1) <= Rank(r2)
    requires RequirePermission(permissions, Some(r1)) == Next
    ensures RequirePermission(permissions, Some(r2)) == Next
  {
    var i :| 0 <= i < |permissions| && HasPermission(r1, permissions[i]);
    Monotone(r1, r2, permissions[i]);
  }
}
