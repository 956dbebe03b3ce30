/** The route gate: sign-in first, then the role list when one is given. */
module ProtectedRoute {
  import opened Common
  import opened SalesTypes

  /** The requiredRole prop: absent, one role, or a list of roles. */
  datatype Requirement = AnyRole | OneRole(role: Role) | RoleList(roles: seq<Role>)

  datatype Decision = Redirect(to: string) | AccessDenied | RenderChildren

  /** The default of the redirectTo prop. */
  const LoginPath := "/login"

  /** `Array.isArray(requiredRole) ? requiredRole : [requiredRole]`. */
  function Roles(required: Requirement): seq<Role>
    requires !required.AnyRole?
  {
    match required
    case OneRole(r) => [r]
    case RoleList(rs) => rs
  }

  /** The gate. A signed-out visitor is sent to redirectTo whatever role is
      asked for. A signed-in visitor sees the page when no role is asked for,
      or when there is a user whose role is in the list; otherwise the
      access-denied panel. An empty list is still a requirement, and no role
      meets it. */
  function Decide(isAuthenticated: bool, user: Option<User>, required: Requirement,
                  redirectTo: string := LoginPath): (d: Decision)
    ensures d.Redirect? <==> !isAuthenticated
    ensures d.Redirect? ==> d.to == redirectTo
    ensures d == AccessDenied <==>
              isAuthenticated && !required.AnyRole? && (user.None? || user.value.role !in Roles(required))
    ensures d == RenderChildren <==>
              isAuthenticated && (required.AnyRole? || (user.Some? && user.value.role in Roles(required)))
  {
    if !isAuthenticated then Redirect(redirectTo)
    else if required.AnyRole? then RenderChildren
    else if user.None? || user.value.role !in Roles(required) then AccessDenied
    else RenderChildren
  }

  /** Without a redirectTo, signed-out visitors go to the login page. */
  lemma SignedOutGoesToLogin(user: Option<User>, required: Requirement)
    ensures Decide(false, user, required) == Redirect("/login")
  {
  }

  /** A single required role gates exactly like the one-element list. */
  lemma OneRoleIsList(isAuthenticated: bool, user: Option<User>, r: Role, redirectTo: string)
    ensures Decide(isAuthenticated, user, OneRole(r), redirectTo)
            == Decide(isAuthenticated, user, RoleList([r]), redirectTo)
  {
  }

  /** The empty role list turns every signed-in visitor away. */
  lemma EmptyListDeniesAll(user: Option<User>, redirectTo: string)
    ensures Decide(true, user, RoleList([]), redirectTo) == AccessDenied
  {
  }
}
