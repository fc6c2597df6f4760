/** The dashboard: the cards shown for each role, and where they lead. */
module DashboardPage {
  import opened Common
  import opened AuthContext
  import opened Routes

  /** A card: its title and the path a click navigates to. */
  datatype Card = Card(title: string, path: string)

  /** `getDashboardContent`: a switch on the raw role string. Any other
      value (or none) shows only the contact-the-administrator message. */
  function DashboardCards(userRole: Option<string>): (r: seq<Card>)
    ensures r != [] <==> userRole.Some? && ParseRole(userRole.value).Some?
    ensures forall i :: 0 <= i < |r| ==> RouteFor(r[i].path).Some? && RouteFor(r[i].path).value.Private?
  {
    if userRole == Some("super_admin") then
      [Card("User Management", "/users"), Card("Generate Reports", "/reports/generate")]
    else if userRole == Some("admin") then
      [Card("Invoices", "/invoices"), Card("Reports", "/reports"), Card("Fund Management", "/accounts")]
    else if userRole == Some("volunteer") then
      [Card("My Invoices", "/my-invoices"), Card("My Reports", "/my-reports")]
    else []
  }

  /** Every card a signed-in role sees opens its page, except the
      volunteer's My Invoices card: that route asks for `view_invoices`,
      which no role holds, so the guard sends the volunteer to
      `/not-authorized`. */
  lemma {:induction false} DashboardCardsReachable(r: Role, email: string)
    ensures var cards := DashboardCards(Some(RoleName(r)));
            forall i :: 0 <= i < |cards| ==>
              (Navigate(SignedIn(r, email), cards[i].path) == Show(cards[i].path) <==> cards[i].path != "/my-invoices")
  {
    var cards := DashboardCards(Some(RoleName(r)));
    match r
    case SuperAdmin =>
      RoleGatedRoutes(SuperAdmin, email);
      assert cards == [Card("User Management", "/users"), Card("Generate Reports", "/reports/generate")];
    case Admin =>
      assert cards == [Card("Invoices", "/invoices"), Card("Reports", "/reports"), Card("Fund Management", "/accounts")];
      PermissionGatedRoute(r, email, "/invoices", "view_all_invoices");
      PermissionGatedRoute(r, email, "/reports", "view_all_reports");
      PermissionGatedRoute(r, email, "/accounts", "view_all_funds");
    case Volunteer =>
      assert cards == [Card("My Invoices", "/my-invoices"), Card("My Reports", "/my-reports")];
      MyInvoicesUnreachable(SignedIn(r, email));
      PermissionGatedRoute(r, email, "/my-reports", "view_own_reports");
  }

  /** The dead card exists: a volunteer clicking My Invoices is turned away. */
  lemma VolunteerMyInvoicesCardRejected(email: string)
    ensures DashboardCards(Some("volunteer"))[0].path == "/my-invoices"
    ensures Navigate(SignedIn(Volunteer, email), "/my-invoices") == Redirect("/not-authorized", None)
  {
    PermissionGatedRoute(Volunteer, email, "/my-invoices", "view_invoices");
    PermissionTableShape();
  }
}
