/** The sign-in page: credential verification against the seed accounts
    and the registry, the role tabs, the seed merge run on mount, and the
    submit handler with its return path. */
module LoginPage {
  import opened Common
  import opened Storage
  import opened AuthContext
  import opened Guard
  import opened Routes

  const SeedPassword := "password123"

  /** The seed accounts the page guarantees in the registry. They carry no
      status and no creation time. */
  const InitialUsers: seq<User> := [
    User("Super Admin", "superadmin@gmail.com", SeedPassword, SuperAdmin, None, None),
    User("Admin User", "admin@gmail.com", SeedPassword, Admin, None, None),
    User("Volunteer User", "volunteer@gmail.com", SeedPassword, Volunteer, None, None)
  ]

  /** The role of the seed account whose email and password both match. */
  function SeedRole(email: string, password: string): (r: Option<Role>)
    ensures r.Some? <==> exists i :: 0 <= i < |InitialUsers| &&
                           InitialUsers[i].email == email && InitialUsers[i].password == password
    ensures r.Some? ==> exists i :: 0 <= i < |InitialUsers| && InitialUsers[i].email == email &&
                           InitialUsers[i].role == r.value
  {
    if email == "superadmin@gmail.com" && password == SeedPassword then
      assert InitialUsers[0].email == email && InitialUsers[0].password == password;
      Some(SuperAdmin)
    else if email == "admin@gmail.com" && password == SeedPassword then
      assert InitialUsers[1].email == email && InitialUsers[1].password == password;
      Some(Admin)
    else if email == "volunteer@gmail.com" && password == SeedPassword then
      assert InitialUsers[2].email == email && InitialUsers[2].password == password;
      Some(Volunteer)
    else None
  }

  predicate CredentialsMatch(u: User, email: string, password: string)
  {
    u.email == email && u.password == password
  }

  /** `verifyCredentials`: `Some(role)` is `{success: true, role}`, `None`
      is `{success: false, role: null}`. A seed match decides on its own;
      otherwise the first registry entry matching email and password
      decides. Either way the account's role must be the tab's role. The
      entry's status is never consulted. */
  function VerifyCredentials(email: string, password: string, tab: Role, registry: Stored<User>)
    : (r: Option<Role>)
    ensures r.Some? ==> r.value == tab
    ensures SeedRole(email, password).Some? ==> (r.Some? <==> SeedRole(email, password) == Some(tab))
    ensures SeedRole(email, password).None? ==>
      (r.Some? <==>
         registry.List? &&
         var i := FindFirst(registry.items, u => CredentialsMatch(u, email, password));
         i.Some? && registry.items[i.value].role == tab)
    ensures registry.Corrupt? && SeedRole(email, password).None? ==> r.None?
  {
    match SeedRole(email, password)
    case Some(seed) => if seed == tab then Some(seed) else None
    case None =>
      match ReadList(registry)
      case Err(_) => None
      case Ok(users) =>
        match FindFirst(users, u => CredentialsMatch(u, email, password))
        case None => None
        case Some(i) => if users[i].role == tab then Some(users[i].role) else None
  }

  /** The seed administrator's credentials succeed on the admin tab and
      fail on the volunteer tab, whatever the registry holds. */
  lemma SeedAdminNeedsAdminTab(registry: Stored<User>)
    ensures VerifyCredentials("admin@gmail.com", SeedPassword, Admin, registry) == Some(Admin)
    ensures VerifyCredentials("admin@gmail.com", SeedPassword, Volunteer, registry) == None
  {
  }

  /** A registry entry is accepted whatever its approval status: a pending
      or rejected sign-up with the right password signs in. */
  lemma StatusIsIgnored(u: User, tab: Role, st: Option<Status>)
    requires SeedRole(u.email, u.password).None?
    ensures VerifyCredentials(u.email, u.password, tab, List([u])) ==
            VerifyCredentials(u.email, u.password, tab, List([u.(status := st)]))
    ensures VerifyCredentials(u.email, u.password, u.role, List([u.(status := Some(Rejected))])) == Some(u.role)
  {
  }

  /** The sign-in tabs. */
  type TabIndex = i: int | 0 <= i < 3

  /** `rolesMap[activeTab]`. */
  function TabRole(tab: TabIndex): Role
  {
    if tab == 0 then Volunteer else if tab == 1 then Admin else SuperAdmin
  }

  /** Each role has exactly one tab. */
  lemma TabsCoverRoles(r: Role)
    ensures exists t: TabIndex :: TabRole(t) == r
    ensures forall t: TabIndex, u: TabIndex :: TabRole(t) == TabRole(u) ==> t == u
  {
    match r
    case Volunteer => assert TabRole(0) == r;
    case Admin => assert TabRole(1) == r;
    case SuperAdmin => assert TabRole(2) == r;
  }

  /** The tab the email field selects by itself when the typed value is one
      of the seed emails; any other value leaves the tab alone. */
  function TabForEmail(value: string): (t: Option<TabIndex>)
    ensures t.Some? <==> exists i :: 0 <= i < |InitialUsers| && InitialUsers[i].email == value
    ensures forall i :: 0 <= i < |InitialUsers| && InitialUsers[i].email == value ==>
              t.Some? && TabRole(t.value) == InitialUsers[i].role
  {
    if value == "superadmin@gmail.com" then
      assert InitialUsers[0].email == value;
      Some(2)
    else if value == "admin@gmail.com" then
      assert InitialUsers[1].email == value;
      Some(1)
    else if value == "volunteer@gmail.com" then
      assert InitialUsers[2].email == value;
      Some(0)
    else None
  }

  /** Typing a seed email and its seed password signs in: the tab the email
      selects is the seed's own role, whatever the registry holds. */
  lemma {:induction false} TypedSeedEmailSignsIn(i: nat, registry: Stored<User>)
    requires i < |InitialUsers|
    ensures TabForEmail(InitialUsers[i].email).Some?
    ensures VerifyCredentials(InitialUsers[i].email, SeedPassword,
                              TabRole(TabForEmail(InitialUsers[i].email).value), registry)
            == Some(InitialUsers[i].role)
  {
    var seed := InitialUsers[i];
    assert SeedRole(seed.email, SeedPassword) == Some(seed.role);
  }

  /** `location.state?.from?.pathname || '/dashboard'`. */
  function ReturnTo(from: Option<string>): (path: string)
    ensures from.Some? && from.value != "" ==> path == from.value
    ensures from.None? || from.value == "" ==> path == "/dashboard"
  {
    if from.Some? && from.value != "" then from.value else "/dashboard"
  }

  /** The seeds whose email the registry lacks. */
  function MissingSeeds(users: seq<User>): (r: seq<User>)
    ensures forall u :: u in r <==> u in InitialUsers && !HasEmail(users, u.email)
    ensures (forall i :: 0 <= i < |InitialUsers| ==> HasEmail(users, InitialUsers[i].email)) ==> r == []
    ensures IsSubsequence(r, InitialUsers)
  {
    var keep := (seed: User) => !HasEmail(users, seed.email);
    forall u ensures u in Filter(InitialUsers, keep) <==> u in InitialUsers && keep(u) {
      FilterMembership(InitialUsers, keep, u);
    }
    FilterKeepsNone(InitialUsers, keep);
    FilterIsSubsequence(InitialUsers, keep);
    Filter(InitialUsers, keep)
  }

  /** The registry after the mount effect: existing entries first, in
      order, then exactly the missing seeds. */
  function MergeSeeds(users: seq<User>): (r: seq<User>)
    ensures |r| == |users| + |MissingSeeds(users)|
    ensures r[..|users|] == users
    ensures r[|users|..] == MissingSeeds(users)
    ensures forall i :: 0 <= i < |InitialUsers| ==> HasEmail(r, InitialUsers[i].email)
  {
    var r := users + MissingSeeds(users);
    forall i | 0 <= i < |InitialUsers| ensures HasEmail(r, InitialUsers[i].email) {
      var seed := InitialUsers[i];
      if !HasEmail(users, seed.email) {
        assert seed in MissingSeeds(users);
        var k :| 0 <= k < |MissingSeeds(users)| && MissingSeeds(users)[k] == seed;
        assert r[|users| + k] == seed;
      } else {
        var j :| 0 <= j < |users| && users[j].email == seed.email;
        assert r[j] == users[j];
      }
    }
    r
  }

  /** Running the merge a second time changes nothing. */
  lemma MergeSeedsIdempotent(users: seq<User>)
    ensures MergeSeeds(MergeSeeds(users)) == MergeSeeds(users)
  {
    var m := MergeSeeds(users);
    assert MissingSeeds(m) == [];
  }

  /** The sign-in page with the state cells its handlers touch. */
  class LoginPage {
    var email: string
    var password: string
    var error: Option<string>
    var activeTab: TabIndex
    /** The path the guard carried here, if any. */
    const from: Option<string>
    const auth: AuthProvider

    constructor (auth: AuthProvider, from: Option<string>)
      ensures this.auth == auth && this.from == from
      ensures email == "" && password == "" && error == None && activeTab == 0
    {
      this.auth := auth;
      this.from := from;
      email, password, error, activeTab := "", "", None, 0;
    }

    /** The mount effect: make sure every seed account is registered, then
        pick up the email of a just-registered user. Corrupt registry text
        makes `JSON.parse` throw out of the effect; `ok` is then false and
        nothing changes. */
    method InitializeUsers() returns (ok: bool)
      modifies this, auth.storage
      ensures ok <==> !old(auth.storage.users).Corrupt?
      ensures !ok ==> auth.storage.users == old(auth.storage.users)
                      && auth.storage.strings == old(auth.storage.strings)
                      && email == old(email)
      ensures old(auth.storage.users).Absent? ==> auth.storage.users == List(InitialUsers)
      ensures old(auth.storage.users).List? ==>
                auth.storage.users == List(MergeSeeds(old(auth.storage.users).items))
      ensures ok ==> if "lastRegisteredEmail" in old(auth.storage.strings)
                        && old(auth.storage.strings)["lastRegisteredEmail"] != ""
                     then email == old(auth.storage.strings)["lastRegisteredEmail"]
                          && auth.storage.strings == old(auth.storage.strings) - {"lastRegisteredEmail"}
                     else email == old(email) && auth.storage.strings == old(auth.storage.strings)
      ensures auth.storage.invoices == old(auth.storage.invoices)
      ensures password == old(password) && error == old(error) && activeTab == old(activeTab)
    {
      var storage := auth.storage;
      match storage.users {
        case Absent =>
          storage.SetUsers(InitialUsers);
        case Corrupt =>
          return false;
        case List(users) =>
          var missing := MissingSeeds(users);
          if |missing| > 0 {
            storage.SetUsers(users + missing);
          } else {
            assert MergeSeeds(users) == users;
          }
      }
      ok := true;
      var last := storage.GetItem("lastRegisteredEmail");
      if last.Some? && last.value != "" {
        email := last.value;
        storage.RemoveItem("lastRegisteredEmail");
      }
    }

    /** `handleChange` of the email field: the value is stored, and a seed
        email switches to its role's tab. */
    method OnEmailChange(value: string)
      modifies this
      ensures email == value
      ensures TabForEmail(value).Some? ==> activeTab == TabForEmail(value).value
      ensures TabForEmail(value).None? ==> activeTab == old(activeTab)
      ensures password == old(password) && error == old(error)
    {
      email := value;
      var t := TabForEmail(value);
      if t.Some? {
        activeTab := t.value;
      }
    }

    /** `handleTabChange`. */
    method OnTabChange(t: TabIndex)
      modifies this
      ensures activeTab == t
      ensures email == old(email) && password == old(password) && error == old(error)
    {
      activeTab := t;
    }

    /** `handleSubmit`: returns where the page navigates, if anywhere. */
    method HandleSubmit() returns (nav: Option<string>)
      modifies this, auth, auth.storage
      ensures email == old(email) && password == old(password) && activeTab == old(activeTab)
      ensures auth.storage.users == old(auth.storage.users)
      ensures auth.storage.invoices == old(auth.storage.invoices)
      ensures (email == "" || password == "") ==>
                error == Some("Please enter both email and password") && nav == None
                && auth.Current() == old(auth.Current())
                && auth.storage.strings == old(auth.storage.strings)
      ensures email != "" && password != "" ==>
        var verdict := VerifyCredentials(email, password, TabRole(activeTab), old(auth.storage.users));
        if verdict.Some? then
          auth.Current() == SignedIn(verdict.value, email) && nav == Some(ReturnTo(from))
          && error == None
          && auth.storage.strings == Mirror(old(auth.storage.strings), auth.Current())
        else
          error == Some("Invalid email or password for the selected role") && nav == None
          && auth.Current() == old(auth.Current())
          && auth.storage.strings == old(auth.storage.strings)
    {
      error := None;
      if email == "" || password == "" {
        error := Some("Please enter both email and password");
        return None;
      }
      var verdict := VerifyCredentials(email, password, TabRole(activeTab), auth.storage.users);
      if verdict.Some? {
        auth.Login(verdict.value, email);
        nav := Some(ReturnTo(from));
      } else {
        error := Some("Invalid email or password for the selected role");
        nav := None;
      }
    }
  }

  /** Redirect and resume: an anonymous visit to a protected page goes to
      `/login` carrying that page; signing in with a role allowed there
      returns to it rather than to the dashboard. */
  lemma RedirectThenResume(path: string, r: Role, email: string)
    requires RouteFor(path).Some? && RouteFor(path).value.Private?
    requires Navigate(SignedIn(r, email), path) == Show(path)
    ensures Navigate(SignedOut, path) == Redirect("/login", Some(path))
    ensures path != "" && ReturnTo(Some(path)) == path
    ensures Navigate(SignedIn(r, email), ReturnTo(Some(path))) == Show(path)
  {
  }

  /** The scenario of a volunteer opening the invoice list. */
  lemma VolunteerResumesAtInvoices(email: string)
    ensures Navigate(SignedOut, "/invoices") == Redirect("/login", Some("/invoices"))
    ensures Navigate(SignedIn(Volunteer, email), ReturnTo(Some("/invoices"))) == Show("/invoices")
  {
    PermissionGatedRoute(Volunteer, email, "/invoices", "view_all_invoices");
  }
}
