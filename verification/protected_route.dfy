// The route guard: signed-out visitors go to the login page, signed-in
// users without the required role to the "unauthorized" page, everyone
// else gets the page inside the main layout.

module ProtectedRoute {
  import opened Common
  import AuthService

  datatype Decision = RedirectToLogin | RedirectToUnauthorized | RenderChildren

  /** The target of a redirect, if the decision is one. */
  function Target(d: Decision): (r: Option<string>)
    ensures r.None? <==> d == RenderChildren
    ensures r.Some? ==> r.value == "/login" || r.value == "/unauthorized"
    ensures d == RedirectToLogin <==> r == Some("/login")
  {
    match d
    case RedirectToLogin => Some("/login")
    case RedirectToUnauthorized => Some("/unauthorized")
    case RenderChildren => None
  }

  /**
   * What the guard renders for the stored user `current`; an absent or
   * empty `requiredRole` asks for no role.
   */
  function Guard(current: Option<AuthService.User>, requiredRole: Option<string>): (d: Decision)
    ensures current.None? ==> d == RedirectToLogin
    ensures d == RedirectToUnauthorized <==>
      current.Some? && requiredRole.Some? && requiredRole.value != "" && current.value.role != requiredRole.value
    ensures d == RenderChildren <==>
      current.Some? && (requiredRole.None? || requiredRole.value == "" || current.value.role == requiredRole.value)
  {
    if current.None? then RedirectToLogin
    else if requiredRole.Some? && requiredRole.value != "" && current.value.role != requiredRole.value then
      RedirectToUnauthorized
    else RenderChildren
  }

  /** The guard as it reads the store: through `isAuthenticated` and `hasRole`. */
  function GuardStore(auth: AuthService.AuthStore, requiredRole: Option<string>): (d: Decision)
    reads auth
    ensures d == Guard(auth.CurrentUser(), requiredRole)
  {
    if !auth.IsAuthenticated() then RedirectToLogin
    else if requiredRole.Some? && requiredRole.value != "" && !auth.HasRole(requiredRole.value) then
      RedirectToUnauthorized
    else RenderChildren
  }

  /** Without a required role, every signed-in user is let through. */
  lemma NoRoleNeeded(u: AuthService.User)
    ensures Guard(Some(u), None) == RenderChildren
    ensures Guard(Some(u), Some("")) == RenderChildren
  {
  }

  /** Signing out sends every protected page back to the login page. */
  lemma SignedOutAlwaysToLogin(requiredRole: Option<string>)
    ensures Target(Guard(None, requiredRole)) == Some("/login")
  {
  }
}
