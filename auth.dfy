/** The authentication context: the fixed role-to-permission table, the
    three-field session, its mirror in the key/value store, hydration from
    that store at start-up, and `login` / `logout`. */
module AuthContext {
  import opened Common
  import opened Storage

  /** `ROLE_PERMISSIONS`: the permissions each role holds. */
  function Permissions(r: Role): (ps: seq<string>)
  {
    match r
    case SuperAdmin =>
      ["manage_users", "delete_invoices", "view_all_invoices", "view_all_reports",
       "view_all_funds", "promote_users", "demote_users", "delete_users"]
    case Admin =>
      ["approve_invoices", "view_all_invoices", "view_all_reports", "view_all_funds",
       "edit_invoices", "edit_reports", "edit_funds"]
    case Volunteer =>
      ["create_invoices", "view_all_invoices", "create_reports", "view_own_reports"]
  }

  /** The table is total and no role is left without permissions; the
      three roles are told apart by what they hold. */
  lemma PermissionTableShape()
    ensures forall r: Role :: |Permissions(r)| > 0
    ensures "view_all_invoices" in Permissions(SuperAdmin)
         && "view_all_invoices" in Permissions(Admin)
         && "view_all_invoices" in Permissions(Volunteer)
    ensures "create_invoices" in Permissions(Volunteer)
         && "create_invoices" !in Permissions(Admin)
         && "create_invoices" !in Permissions(SuperAdmin)
    ensures "delete_invoices" in Permissions(SuperAdmin)
         && "delete_invoices" !in Permissions(Admin)
         && "delete_invoices" !in Permissions(Volunteer)
    ensures forall r: Role :: "view_invoices" !in Permissions(r)
  {
    forall r: Role ensures |Permissions(r)| > 0 && "view_invoices" !in Permissions(r) {
      match r
      case SuperAdmin =>
      case Admin =>
      case Volunteer =>
    }
  }

  /** The state of the authentication context. The role is whatever string
      the context was given or read back from storage (the stored value is
      cast to a role without being checked). */
  datatype Session = Session(
    isAuthenticated: bool,
    userRole: Option<string>,
    userEmail: Option<string>)

  /** The session `login(role, email)` establishes. */
  function SignedIn(role: Role, email: string): Session
  {
    Session(true, Some(RoleName(role)), Some(email))
  }

  const SignedOut := Session(false, None, None)

  /** JavaScript truthiness of an optional string: `null` and `""` are false. */
  predicate Present(v: Option<string>)
  {
    v.Some? && v.value != ""
  }

  /** `hasPermission(permission)`. With no role (or an empty one) it is
      false. For a stored string that names no role, the table lookup is
      `undefined` and the call to `includes` throws. */
  function HasPermission(userRole: Option<string>, permission: string): (r: Result<bool>)
    ensures !Present(userRole) ==> r == Ok(false)
    ensures forall role: Role :: userRole == Some(RoleName(role)) ==>
              r == Ok(permission in Permissions(role))
    ensures r.Err? <==> Present(userRole) && ParseRole(userRole.value).None?
  {
    if !Present(userRole) then Ok(false)
    else match ParseRole(userRole.value)
      case Some(role) => Ok(permission in Permissions(role))
      case None => Err("TypeError: cannot read properties of undefined (reading 'includes')")
  }

  /** The three keys the context keeps in the store. */
  const AuthKeys: set<string> := {"isAuthenticated", "userRole", "userEmail"}

  /** Start-up: each field is read from the store on its own.
      `isAuthenticated` holds only for the exact string "true". */
  function Hydrate(store: map<string, string>): (s: Session)
    ensures s.isAuthenticated <==> "isAuthenticated" in store && store["isAuthenticated"] == "true"
    ensures s.userRole.Some? <==> "userRole" in store
    ensures s.userRole.Some? ==> s.userRole.value == store["userRole"]
    ensures s.userEmail.Some? <==> "userEmail" in store
    ensures s.userEmail.Some? ==> s.userEmail.value == store["userEmail"]
  {
    Session(
      "isAuthenticated" in store && store["isAuthenticated"] == "true",
      if "userRole" in store then Some(store["userRole"]) else None,
      if "userEmail" in store then Some(store["userEmail"]) else None)
  }

  /** Writes one optional field: set when truthy, removed otherwise. */
  function MirrorField(store: map<string, string>, key: string, v: Option<string>): map<string, string>
  {
    if Present(v) then store[key := v.value] else store - {key}
  }

  /** The store after the three persistence effects have run for session `s`. */
  function Mirror(store: map<string, string>, s: Session): (m: map<string, string>)
    ensures "isAuthenticated" in m <==> s.isAuthenticated
    ensures s.isAuthenticated ==> m["isAuthenticated"] == "true"
    ensures "userRole" in m <==> Present(s.userRole)
    ensures Present(s.userRole) ==> m["userRole"] == s.userRole.value
    ensures "userEmail" in m <==> Present(s.userEmail)
    ensures Present(s.userEmail) ==> m["userEmail"] == s.userEmail.value
    ensures forall k :: k !in AuthKeys ==> (k in m <==> k in store)
    ensures forall k :: k !in AuthKeys && k in store ==> m[k] == store[k]
  {
    var a := if s.isAuthenticated then store["isAuthenticated" := "true"]
             else store - {"isAuthenticated"};
    MirrorField(MirrorField(a, "userRole", s.userRole), "userEmail", s.userEmail)
  }

  /** A session whose optional fields are either absent or non-empty: the
      only sessions the store can represent faithfully. */
  predicate Representable(s: Session)
  {
    (s.userRole.Some? ==> s.userRole.value != "") &&
    (s.userEmail.Some? ==> s.userEmail.value != "")
  }

  /** Round trip: hydrating the mirrored store gives the session back. */
  lemma HydrateMirror(store: map<string, string>, s: Session)
    requires Representable(s)
    ensures Hydrate(Mirror(store, s)) == s
  {
  }

  /** After `login(role, email)` has been persisted, a restart yields the
      same three fields, provided the email is non-empty; an empty email is
      not persisted and comes back absent. */
  lemma LoginSurvivesRestart(store: map<string, string>, role: Role, email: string)
    ensures email != "" ==> Hydrate(Mirror(store, SignedIn(role, email))) == SignedIn(role, email)
    ensures email == "" ==>
      Hydrate(Mirror(store, SignedIn(role, email))) == Session(true, Some(RoleName(role)), None)
  {
    HydrateMirror(store, Session(true, Some(RoleName(role)), if email == "" then None else Some(email)));
  }

  /** Hydration does not fail closed: a stored "true" with no role gives an
      authenticated session without a role. */
  lemma HydrateDoesNotFailClosed(store: map<string, string>)
    requires "isAuthenticated" in store && store["isAuthenticated"] == "true"
    requires "userRole" !in store && "userEmail" !in store
    ensures Hydrate(store) == Session(true, None, None)
  {
  }

  /** Mirroring the signed-out session removes exactly the three keys. */
  lemma MirrorSignedOut(store: map<string, string>)
    ensures Mirror(store, SignedOut) == store - AuthKeys
  {
    var m := Mirror(store, SignedOut);
    assert m.Keys == store.Keys - AuthKeys;
  }

  /** The `AuthProvider`: three state cells plus the store they are
      mirrored into. */
  class AuthProvider {
    var isAuthenticated: bool
    var userRole: Option<string>
    var userEmail: Option<string>
    const storage: LocalStorage

    function Current(): Session
      reads this
    {
      Session(isAuthenticated, userRole, userEmail)
    }

    /** The store holds what the persistence effects write for the current session. */
    ghost predicate Mirrored()
      reads this, storage
    {
      storage.strings == Mirror(storage.strings, Current())
    }

    /** Runs the three persistence effects. */
    method Persist()
      modifies storage
      ensures storage.strings == Mirror(old(storage.strings), Current())
      ensures storage.users == old(storage.users) && storage.invoices == old(storage.invoices)
    {
      if isAuthenticated {
        storage.SetItem("isAuthenticated", "true");
      } else {
        storage.RemoveItem("isAuthenticated");
      }
      if Present(userRole) {
        storage.SetItem("userRole", userRole.value);
      } else {
        storage.RemoveItem("userRole");
      }
      if Present(userEmail) {
        storage.SetItem("userEmail", userEmail.value);
      } else {
        storage.RemoveItem("userEmail");
      }
    }

    /** Mounting the provider: hydrate each cell, then the effects run once. */
    constructor (storage: LocalStorage)
      modifies storage
      ensures this.storage == storage
      ensures Current() == Hydrate(old(storage.strings))
      ensures storage.strings == Mirror(old(storage.strings), Current())
      ensures storage.users == old(storage.users) && storage.invoices == old(storage.invoices)
      ensures Mirrored()
    {
      this.storage := storage;
      var s := Hydrate(storage.strings);
      isAuthenticated := s.isAuthenticated;
      userRole := s.userRole;
      userEmail := s.userEmail;
      new;
      Persist();
    }

    /** `login(role, email)`: the three cells change together, then the
        effects persist them. */
    method Login(role: Role, email: string)
      modifies this, storage
      ensures Current() == SignedIn(role, email)
      ensures storage.strings == Mirror(old(storage.strings), Current())
      ensures storage.users == old(storage.users) && storage.invoices == old(storage.invoices)
      ensures Mirrored()
    {
      isAuthenticated, userRole, userEmail := true, Some(RoleName(role)), Some(email);
      Persist();
    }

    /** `logout()`: clears the cells and removes the three keys. */
    method Logout()
      modifies this, storage
      ensures Current() == SignedOut
      ensures storage.strings == old(storage.strings) - AuthKeys
      ensures storage.users == old(storage.users) && storage.invoices == old(storage.invoices)
      ensures Mirrored()
    {
      isAuthenticated, userRole, userEmail := false, None, None;
      storage.RemoveItem("isAuthenticated");
      storage.RemoveItem("userRole");
      storage.RemoveItem("userEmail");
      Persist();
      MirrorSignedOut(old(storage.strings));
    }
  }
}
