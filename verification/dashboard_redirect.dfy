/** `/dashboard`: send a session to the dashboard of its role. */
module DashboardRedirect {

  import opened Js
  import Login

  /** Where `/dashboard` redirects: "/" when signed out, else the dashboard
      of the role, "/" for any other role or none. */
  function Destination(isAuthenticated: bool, role: Value): (path: string)
    ensures !isAuthenticated ==> path == "/"
    ensures role !in {Str("admin"), Str("courier"), Str("user")} ==> path == "/"
    ensures isAuthenticated && role == Str("admin") ==> path == "/admin"
    ensures isAuthenticated && role == Str("courier") ==> path == "/courier"
    ensures isAuthenticated && role == Str("user") ==> path == "/user"
  {
    if !isAuthenticated then "/"
    else if role == Str("admin") then "/admin"
    else if role == Str("courier") then "/courier"
    else if role == Str("user") then "/user"
    else "/"
  }

  /** For a signed-in session the redirect and the login page's role mapping
      agree on every role value. */
  lemma AgreesWithLogin(role: Value)
    ensures Destination(true, role) == Login.NavigateBasedOnRole(role)
  {
  }
}
