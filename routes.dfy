/** The route table of the application: which guard wraps each path, and
    the `PublicRoute` wrapper of the sign-in and sign-up pages. */
module Routes {
  import opened Common
  import opened AuthContext
  import opened Guard

  /** How a path is wrapped: not at all, by `PublicRoute`, or by
      `PrivateRoute` with the given props. */
  datatype Wrapper = Unguarded | PublicOnly | Private(req: Requirement)

  function RoleRequirement(r: Role): Requirement { Requirement(Some(r), None) }
  function PermissionRequirement(p: string): Requirement { Requirement(None, Some(p)) }

  /** The `<Routes>` table; `None` for a path no route matches. */
  function RouteFor(path: string): Option<Wrapper>
  {
    if path in {"/", "/about", "/contact", "/forgot-password", "/not-authorized"} then Some(Unguarded)
    else if path in {"/login", "/signup"} then Some(PublicOnly)
    else if path == "/dashboard" then Some(Private(NoRequirement))
    else if path == "/users" then Some(Private(RoleRequirement(SuperAdmin)))
    else if path == "/invoices" then Some(Private(PermissionRequirement("view_all_invoices")))
    else if path == "/invoices/new" then Some(Private(PermissionRequirement("create_invoices")))
    else if path == "/reports" then Some(Private(PermissionRequirement("view_all_reports")))
    else if path == "/accounts" then Some(Private(PermissionRequirement("view_all_funds")))
    else if path == "/my-invoices" then Some(Private(PermissionRequirement("view_invoices")))
    else if path == "/my-reports" then Some(Private(PermissionRequirement("view_own_reports")))
    else if path == "/accounts/add" then Some(Private(RoleRequirement(Admin)))
    else if path == "/reports/generate" then Some(Private(RoleRequirement(SuperAdmin)))
    else None
  }

  /** Every declared route carries at most one kind of requirement, and
      every permission a route requires is a non-empty string. */
  lemma RoutesCarryOneRequirement(path: string)
    ensures RouteFor(path).Some? && RouteFor(path).value.Private? ==>
      var req := RouteFor(path).value.req;
      !(req.requiredRole.Some? && req.requiredPermission.Some?) &&
      (req.requiredPermission.Some? ==> NeedsPermission(req))
  {
  }

  /** `PublicRoute`: a signed-in session is sent to `/dashboard`. */
  datatype PublicDecision = ShowPublic | RedirectToDashboard

  function PublicRoute(isAuthenticated: bool): (d: PublicDecision)
    ensures d == RedirectToDashboard <==> isAuthenticated
  {
    if isAuthenticated then RedirectToDashboard else ShowPublic
  }

  /** The result of navigating to a path. */
  datatype Outcome = Show(page: string) | Redirect(to: string, from: Option<string>) | Crash | NoMatch

  /** Navigation to `path` under session `s`: the wrapper of the matching
      route decides. */
  function Navigate(s: Session, path: string): (o: Outcome)
    ensures RouteFor(path).None? <==> o == NoMatch
    ensures o.Show? ==> o.page == path
    ensures o.Show? && RouteFor(path).value.Private? ==> s.isAuthenticated
    ensures RouteFor(path) == Some(Unguarded) ==> o == Show(path)
    ensures !s.isAuthenticated && RouteFor(path).Some? && RouteFor(path).value.Private?
            ==> o == Redirect("/login", Some(path))
  {
    match RouteFor(path)
    case None => NoMatch
    case Some(Unguarded) => Show(path)
    case Some(PublicOnly) =>
      (match PublicRoute(s.isAuthenticated)
       case ShowPublic => Show(path)
       case RedirectToDashboard => Redirect("/dashboard", None))
    case Some(Private(req)) =>
      match PrivateRoute(s, req, path)
      case Render => Show(path)
      case RedirectToLogin(from) => Redirect("/login", Some(from))
      case RedirectNotAuthorized => Redirect("/not-authorized", None)
      case RenderError => Crash
  }

  /** The role-gated routes admit exactly the one role each names. */
  lemma RoleGatedRoutes(r: Role, email: string)
    ensures Navigate(SignedIn(r, email), "/users") == Show("/users") <==> r == SuperAdmin
    ensures Navigate(SignedIn(r, email), "/reports/generate") == Show("/reports/generate") <==> r == SuperAdmin
    ensures Navigate(SignedIn(r, email), "/accounts/add") == Show("/accounts/add") <==> r == Admin
  {
    RoleNamesDistinct();
  }

  lemma RoleNamesDistinct()
    ensures forall a: Role, b: Role :: RoleName(a) == RoleName(b) ==> a == b
  {
    forall a: Role, b: Role | RoleName(a) == RoleName(b) ensures a == b {
      ParseRoleName(a);
      ParseRoleName(b);
    }
  }

  /** A permission-gated route admits a signed-in role exactly when the
      role holds the permission. */
  lemma PermissionGatedRoute(r: Role, email: string, path: string, p: string)
    requires RouteFor(path) == Some(Private(PermissionRequirement(p)))
    ensures Navigate(SignedIn(r, email), path) == Show(path) <==> p in Permissions(r)
    ensures Navigate(SignedIn(r, email), path) != Show(path) ==>
              Navigate(SignedIn(r, email), path) == Redirect("/not-authorized", None)
  {
    RoleNamesDistinct();
  }

  /** `/my-invoices` requires `view_invoices`, which no role holds, so no
      session ever sees that page. */
  lemma MyInvoicesUnreachable(s: Session)
    ensures Navigate(s, "/my-invoices") != Show("/my-invoices")
  {
    PermissionTableShape();
  }

  /** The super administrator cannot open the new-invoice form. */
  lemma SuperAdminCannotCreateInvoices(email: string)
    ensures Navigate(SignedIn(SuperAdmin, email), "/invoices/new") == Redirect("/not-authorized", None)
  {
  }

  /** A signed-in session visiting `/login` or `/signup` lands on the dashboard. */
  lemma SignedInSkipsPublicPages(s: Session, path: string)
    requires path == "/login" || path == "/signup"
    ensures s.isAuthenticated ==> Navigate(s, path) == Redirect("/dashboard", None)
    ensures !s.isAuthenticated ==> Navigate(s, path) == Show(path)
  {
  }
}
