/** The login page's navigation: the role-to-dashboard mapping, and the effect
    that moves a signed-in session off the login page. */
module Login {

  import opened Options
  import opened Js
  import opened BrowserStorage
  import Types
  import AuthSlice

  /** `navigateBasedOnRole`: the dashboard of each role, "/" for anything
      else. The switch compares with `===`, so only the three exact strings
      lead to a dashboard. */
  function NavigateBasedOnRole(role: Value): (path: string)
    ensures path in {"/admin", "/courier", "/user", "/"}
    ensures path != "/" <==> exists r: Types.Role :: role == Str(Types.RoleName(r))
  {
    match role
    case Str("admin") => assert role == Str(Types.RoleName(Types.Admin)); "/admin"
    case Str("courier") => assert role == Str(Types.RoleName(Types.Courier)); "/courier"
    case Str("user") => assert role == Str(Types.RoleName(Types.User)); "/user"
    case _ => "/"
  }

  /** Each role is sent to the dashboard named after it, and different roles
      to different dashboards. */
  lemma RoleDashboards(r: Types.Role, q: Types.Role)
    ensures NavigateBasedOnRole(Str(Types.RoleName(r))) == "/" + Types.RoleName(r)
    ensures r != q ==> NavigateBasedOnRole(Str(Types.RoleName(r))) != NavigateBasedOnRole(Str(Types.RoleName(q)))
  {
  }

  /** The redirect effect of the login page, run with the session's sign-in
      flag and role and the current storage; `None` when it does not
      navigate. Without a role in the store it falls back to the role inside
      the stored user: `parse` is `None` where `JSON.parse` throws, and
      reading `.role` of a stored `null` throws too; both are caught. */
  function LoginRedirect(isAuthenticated: bool, role: Value, st: Storage, parse: string -> Option<Value>): (r: Option<string>)
    ensures !isAuthenticated ==> r == None
    ensures isAuthenticated && Truthy(role) ==> r == Some(NavigateBasedOnRole(role))
    ensures isAuthenticated && !Truthy(role) ==>
      (r.Some? <==>
        && GetItem(st, "user").Some? && GetItem(st, "user").value != ""
        && parse(GetItem(st, "user").value).Some?
        && Truthy(Get(parse(GetItem(st, "user").value).value, "role")))
    ensures isAuthenticated && !Truthy(role) && r.Some? ==>
      r.value == NavigateBasedOnRole(Get(parse(GetItem(st, "user").value).value, "role"))
  {
    if !isAuthenticated then None
    else if Truthy(role) then Some(NavigateBasedOnRole(role))
    else
      match GetItem(st, "user")
      case None => None
      case Some(text) =>
        if text == "" then None
        else
          match parse(text)
          case None => None
          case Some(stored) =>
            match Read(stored, "role")
            case None => None
            case Some(storedRole) => if Truthy(storedRole) then Some(NavigateBasedOnRole(storedRole)) else None
  }

  /** After a successful login the page always moves on, to the dashboard of
      the role the slice settled on; a login as a courier whose backend record
      names no role lands on the courier dashboard. */
  lemma LoginLandsOnDashboard(s: AuthSlice.Session, p: AuthSlice.LoginPayload, codec: AuthSlice.JsonCodec)
    requires p.loginRole != ""
    ensures var signedIn := AuthSlice.LoginFulfilled(s, p, codec);
      LoginRedirect(signedIn.state.isAuthenticated, signedIn.state.role, signedIn.storage, codec.parse)
        == Some(NavigateBasedOnRole(AuthSlice.FinalRole(p.user, p.loginRole)))
    ensures p.loginRole == "courier" && p.user == Obj(map[]) ==>
      var signedIn := AuthSlice.LoginFulfilled(s, p, codec);
      LoginRedirect(signedIn.state.isAuthenticated, signedIn.state.role, signedIn.storage, codec.parse) == Some("/courier")
  {
  }
}
