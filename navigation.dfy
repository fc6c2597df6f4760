/** The top bar of the signed-in pages: its role menu and the logout
    button. */
module DashboardNavigation {
  import opened Common
  import opened Storage
  import opened AuthContext
  import opened Routes

  /** A menu button: its caption and the path it navigates to. */
  datatype NavItem = NavItem(caption: string, path: string)

  /** `getNavigationItems`: a switch on the raw role string; any other
      value gives no buttons. */
  function NavigationItems(userRole: Option<string>): (r: seq<NavItem>)
    ensures r != [] <==> userRole.Some? && ParseRole(userRole.value).Some?
    ensures forall i :: 0 <= i < |r| ==> RouteFor(r[i].path).Some? && RouteFor(r[i].path).value.Private?
  {
    if userRole == Some("super_admin") then
      [NavItem("Manage Users", "/users"), NavItem("All Invoices", "/invoices")]
    else if userRole == Some("admin") then
      [NavItem("Manage Invoices", "/invoices"), NavItem("Reports", "/reports"), NavItem("Funds", "/accounts")]
    else if userRole == Some("volunteer") then
      [NavItem("My Invoices", "/my-invoices"), NavItem("My Reports", "/my-reports")]
    else []
  }

  /** Every menu button a signed-in role sees opens its page, except the
      volunteer's My Invoices button. */
  lemma {:induction false} NavigationItemsReachable(r: Role, email: string)
    ensures var items := NavigationItems(Some(RoleName(r)));
            forall i :: 0 <= i < |items| ==>
              (Navigate(SignedIn(r, email), items[i].path) == Show(items[i].path) <==> items[i].path != "/my-invoices")
  {
    var items := NavigationItems(Some(RoleName(r)));
    match r
    case SuperAdmin =>
      RoleGatedRoutes(SuperAdmin, email);
      assert items == [NavItem("Manage Users", "/users"), NavItem("All Invoices", "/invoices")];
      PermissionGatedRoute(r, email, "/invoices", "view_all_invoices");
    case Admin =>
      assert items == [NavItem("Manage Invoices", "/invoices"), NavItem("Reports", "/reports"), NavItem("Funds", "/accounts")];
      PermissionGatedRoute(r, email, "/invoices", "view_all_invoices");
      PermissionGatedRoute(r, email, "/reports", "view_all_reports");
      PermissionGatedRoute(r, email, "/accounts", "view_all_funds");
    case Volunteer =>
      assert items == [NavItem("My Invoices", "/my-invoices"), NavItem("My Reports", "/my-reports")];
      MyInvoicesUnreachable(SignedIn(r, email));
      PermissionGatedRoute(r, email, "/my-reports", "view_own_reports");
  }

  class DashboardNavigation {
    const auth: AuthProvider

    constructor (auth: AuthProvider)
      ensures this.auth == auth
    {
      this.auth := auth;
    }

    /** `handleLogout`: sign out, then go to `/login`, which a signed-out
        session is shown. */
    method HandleLogout() returns (nav: string)
      modifies auth, auth.storage
      ensures auth.Current() == SignedOut
      ensures auth.storage.strings == old(auth.storage.strings) - AuthKeys
      ensures auth.storage.users == old(auth.storage.users) && auth.storage.invoices == old(auth.storage.invoices)
      ensures nav == "/login" && Navigate(auth.Current(), nav) == Show("/login")
    {
      auth.Logout();
      nav := "/login";
      SignedInSkipsPublicPages(auth.Current(), nav);
    }
  }
}
