/** `requireRole(allowed)`: the middleware that lets a request through only
    when the identity `requireAuth` attached carries one of the allowed
    roles. */
module RequireRole {
  import opened Js
  import opened Entities
  import opened Http

  /** The argument of `requireRole`: an array of roles, or a single role
      (which the middleware wraps into a one-element array). */
  datatype Allowed = Many(roles: seq<Role>) | One(role: Role)

  function AsList(allowed: Allowed): (l: seq<Role>)
    ensures allowed.Many? ==> l == allowed.roles
    ensures allowed.One? ==> l == [allowed.role]
  {
    match allowed
    case Many(roles) => roles
    case One(r) => [r]
  }

  /** `requireRole()` with no argument. */
  const NoneAllowed: Allowed := Many([])

  const Unauthorized: Reply := Json(401, ErrorBody("Unauthorized"))
  const Forbidden: Reply := Json(403, ErrorBody("Forbidden"))

  /** The middleware's decision for the identity on `req.user`. */
  function Gate(allowed: Allowed, user: Option<Identity>): (s: Step)
    ensures s == Halt(Unauthorized) <==> user.None? || user.value.role.None?
    ensures s == Halt(Forbidden) <==>
      user.Some? && user.value.role.Some? && user.value.role.value !in AsList(allowed)
    ensures s == Next <==>
      user.Some? && user.value.role.Some? && user.value.role.value in AsList(allowed)
  {
    if user.None? || user.value.role.None? then Halt(Unauthorized)
    else if user.value.role.value !in AsList(allowed) then Halt(Forbidden)
    else Next
  }

  /** A single role behaves as the one-element list holding it. */
  lemma SingleRoleIsList(r: Role, user: Option<Identity>)
    ensures Gate(One(r), user) == Gate(Many([r]), user)
  {
  }

  /** With the default argument no identity ever gets through: an
      authenticated one is forbidden, any other unauthorized. */
  lemma DefaultForbidsEveryone(user: Option<Identity>)
    ensures Gate(NoneAllowed, user) != Next
    ensures user.Some? && user.value.role.Some? ==> Gate(NoneAllowed, user) == Halt(Forbidden)
  {
  }

  /** The gate of every delete route: ADMIN and SUPPORT pass, USER is
      forbidden. */
  const StaffOnly: Allowed := Many([ADMIN, SUPPORT])

  lemma StaffOnlyGate(user: Identity)
    requires user.role.Some?
    ensures Gate(StaffOnly, Some(user)) == Next <==> user.role.value != USER
  {
  }
}
