/** The route guard: render the protected page, or redirect. */
module ProtectedRoute {

  import opened Options
  import opened Js

  datatype Guarded = Children | Redirect(path: string)

  /** `<ProtectedRoute requiredRole fallbackPath>`. An absent `fallbackPath`
      defaults to "/"; an absent or empty `requiredRole` checks nothing beyond
      being signed in. */
  function Guard(isAuthenticated: bool, role: Value, requiredRole: Option<string>, fallbackPath: Option<string>): (r: Guarded)
    ensures r.Children? <==>
      isAuthenticated && (requiredRole.None? || requiredRole.value == "" || role == Str(requiredRole.value))
    ensures r.Redirect? ==> r.path == fallbackPath.GetOr("/")
  {
    var fallback := if fallbackPath.Some? then fallbackPath.value else "/";
    if !isAuthenticated then Redirect(fallback)
    else if requiredRole.Some? && Truthy(Str(requiredRole.value)) && role != Str(requiredRole.value) then Redirect(fallback)
    else Children
  }

  /** A signed-out session is redirected whatever role the route requires. */
  lemma SignedOutRedirected(role: Value, requiredRole: Option<string>, fallbackPath: Option<string>)
    ensures Guard(false, role, requiredRole, fallbackPath) == Redirect(fallbackPath.GetOr("/"))
  {
  }
}
