/** The route table of the application: which page a path shows for a
    session, or where it redirects. */
module AppRoutes {

  import opened Options
  import opened Js
  import opened Types
  import ProtectedRoute
  import DashboardRedirect

  datatype Page = Landing | LoginPage | Registration | AdminDashboard | UserDashboard | CourierDashboard

  datatype Screen = Show(page: Page) | RedirectTo(path: string)

  /** A wildcard route pattern such as `/admin/` followed by `*`: the section
      itself or any path below it. */
  predicate Under(path: string, section: string) {
    path == section || (|path| > |section| && path[..|section| + 1] == section + "/")
  }

  function Section(r: Role): string {
    "/" + RoleName(r)
  }

  function DashboardOf(r: Role): Page {
    match r
    case Admin => AdminDashboard
    case User => UserDashboard
    case Courier => CourierDashboard
  }

  predicate IsDashboard(p: Page) {
    p == AdminDashboard || p == UserDashboard || p == CourierDashboard
  }

  /** A dashboard route: the dashboard behind a guard requiring its role. */
  function Protected(r: Role, isAuthenticated: bool, role: Value): Screen {
    match ProtectedRoute.Guard(isAuthenticated, role, Some(RoleName(r)), None)
    case Children => Show(DashboardOf(r))
    case Redirect(path) => RedirectTo(path)
  }

  /** `<AppRoutes>` for a session with the given sign-in flag and role. */
  function Route(path: string, isAuthenticated: bool, role: Value): (s: Screen)
    ensures path == "/" ==> s == Show(Landing)
    ensures path == "/login" ==> s == Show(LoginPage)
    ensures path == "/register" ==> s == Show(Registration)
    ensures path == "/dashboard" ==> s == RedirectTo(DashboardRedirect.Destination(isAuthenticated, role))
    ensures s.RedirectTo? ==> s.path in {"/", "/admin", "/user", "/courier"}
    ensures s.RedirectTo? && s.path != "/" ==> path == "/dashboard"
  {
    if path == "/" then Show(Landing)
    else if path == "/login" then Show(LoginPage)
    else if path == "/register" then Show(Registration)
    else if path == "/dashboard" then RedirectTo(DashboardRedirect.Destination(isAuthenticated, role))
    else if Under(path, "/admin") then Protected(Admin, isAuthenticated, role)
    else if Under(path, "/user") then Protected(User, isAuthenticated, role)
    else if Under(path, "/courier") then Protected(Courier, isAuthenticated, role)
    else RedirectTo("/")
  }

  /** A path in a section starts like the section. */
  lemma UnderSecondChar(path: string, section: string)
    requires Under(path, section) && |section| >= 2
    ensures |path| >= |section| && path[1] == section[1]
  {
    if path != section {
      assert path[..|section| + 1][1] == (section + "/")[1];
    }
  }

  lemma SectionNames()
    ensures Section(Admin) == "/admin" && Section(User) == "/user" && Section(Courier) == "/courier"
    ensures Section(Admin)[1] == 'a' && Section(User)[1] == 'u' && Section(Courier)[1] == 'c'
  {
  }

  /** The sections of the three roles do not overlap, and none contains a
      public path or `/dashboard`. */
  lemma SectionsDisjoint(path: string, r: Role, q: Role)
    requires Under(path, Section(r)) && Under(path, Section(q))
    ensures r == q
    ensures path !in {"/", "/login", "/register", "/dashboard"}
  {
    SectionNames();
    UnderSecondChar(path, Section(r));
    UnderSecondChar(path, Section(q));
    assert "/login"[1] == 'l' && "/register"[1] == 'r' && "/dashboard"[1] == 'd';
  }

  /** A path in a role's section is served by that role's guarded dashboard. */
  lemma RouteInSection(path: string, isAuthenticated: bool, role: Value, r: Role)
    requires Under(path, Section(r))
    ensures Route(path, isAuthenticated, role) == Protected(r, isAuthenticated, role)
  {
    SectionNames();
    SectionsDisjoint(path, r, r);
    if r != Admin && Under(path, "/admin") {
      SectionsDisjoint(path, r, Admin);
    }
    if r != User && Under(path, "/user") {
      SectionsDisjoint(path, r, User);
    }
  }

  /** Access control: a path shows the dashboard of a role exactly when it
      lies in that role's section and the session is signed in with that
      role. */
  lemma AccessControl(path: string, isAuthenticated: bool, role: Value, r: Role)
    ensures Route(path, isAuthenticated, role) == Show(DashboardOf(r)) <==>
      Under(path, Section(r)) && isAuthenticated && role == Str(RoleName(r))
  {
    SectionNames();
    if Under(path, Section(r)) {
      RouteInSection(path, isAuthenticated, role, r);
    } else if Under(path, "/admin") {
      RouteInSection(path, isAuthenticated, role, Admin);
    } else if Under(path, "/user") {
      RouteInSection(path, isAuthenticated, role, User);
    } else if Under(path, "/courier") {
      RouteInSection(path, isAuthenticated, role, Courier);
    }
  }

  /** No redirect chain is longer than one step: wherever a path redirects to
      shows a page for the same session. */
  lemma RedirectsSettle(path: string, isAuthenticated: bool, role: Value)
    requires Route(path, isAuthenticated, role).RedirectTo?
    ensures Route(Route(path, isAuthenticated, role).path, isAuthenticated, role).Show?
  {
    SectionNames();
    var target := Route(path, isAuthenticated, role).path;
    if target != "/" {
      assert target == DashboardRedirect.Destination(isAuthenticated, role);
      assert isAuthenticated && role in {Str("admin"), Str("courier"), Str("user")};
    }
    if target == "/admin" {
      RouteInSection(target, isAuthenticated, role, Admin);
    } else if target == "/user" {
      RouteInSection(target, isAuthenticated, role, User);
    } else if target == "/courier" {
      RouteInSection(target, isAuthenticated, role, Courier);
    }
  }
}
