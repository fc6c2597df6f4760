/** The user-management page: loading (and seeding) the registry, and the
    approve / reject / delete / role-change handlers, each of which writes
    the new list to the store and then to the page state. */
module UserManagementPage {
  import opened Common
  import opened Storage

  /** The three approved accounts written when the registry is empty.
      `createdAt` is the clock reading taken at that moment. */
  function SeedUsers(createdAt: string): (r: seq<User>)
    ensures |r| == 3
    ensures forall i :: 0 <= i < |r| ==> r[i].status == Some(Approved)
    ensures r[0].role == SuperAdmin && r[1].role == Admin && r[2].role == Volunteer
    ensures UniqueEmails(r)
  {
    [User("Super Admin", "superadmin@gmail.com", "password123", SuperAdmin, Some(Approved), Some(createdAt)),
     User("Admin User", "admin@gmail.com", "password123", Admin, Some(Approved), Some(createdAt)),
     User("Volunteer User", "volunteer@gmail.com", "password123", Volunteer, Some(Approved), Some(createdAt))]
  }

  /** `users.map(u => u.email === email ? {...u, status} : u)`. */
  function WithStatus(users: seq<User>, email: string, st: Status): (r: seq<User>)
    ensures |r| == |users|
    ensures forall i :: 0 <= i < |users| ==>
              r[i] == if users[i].email == email then users[i].(status := Some(st)) else users[i]
  {
    if users == [] then []
    else
      var u := users[0];
      [if u.email == email then u.(status := Some(st)) else u] + WithStatus(users[1..], email, st)
  }

  /** Approving (or rejecting) twice is approving once. */
  lemma WithStatusIdempotent(users: seq<User>, email: string, st: Status)
    ensures WithStatus(WithStatus(users, email, st), email, st) == WithStatus(users, email, st)
  {
  }

  /** `users.map(u => u.email === email ? {...u, role: newRole} : u)`. */
  function WithRole(users: seq<User>, email: string, newRole: Role): (r: seq<User>)
    ensures |r| == |users|
    ensures forall i :: 0 <= i < |users| ==>
              r[i] == if users[i].email == email then users[i].(role := newRole) else users[i]
  {
    if users == [] then []
    else
      var u := users[0];
      [if u.email == email then u.(role := newRole) else u] + WithRole(users[1..], email, newRole)
  }

  /** The role change looks only at the email: the seeded super
      administrator is demoted like any other entry. */
  lemma RoleChangeDemotesSuperAdmin(createdAt: string)
    ensures WithRole(SeedUsers(createdAt), "superadmin@gmail.com", Admin)[0].role == Admin
  {
  }

  /** `users.filter(u => u.email !== email)`. */
  function WithoutEmail(users: seq<User>, email: string): (r: seq<User>)
    ensures !HasEmail(r, email)
    ensures forall u :: u in r <==> u in users && u.email != email
    ensures IsSubsequence(r, users)
    ensures forall u: User :: u.email != email ==> multiset(r)[u] == multiset(users)[u]
  {
    var keep := (u: User) => u.email != email;
    forall u ensures u in Filter(users, keep) <==> u in users && keep(u) {
      FilterMembership(users, keep, u);
    }
    forall u | keep(u) ensures multiset(Filter(users, keep))[u] == multiset(users)[u] {
      FilterKeepsCount(users, keep, u);
    }
    FilterIsSubsequence(users, keep);
    Filter(users, keep)
  }

  /** Deleting an email that is not registered leaves the list as it was. */
  lemma DeleteAbsentEmail(users: seq<User>, email: string)
    requires !HasEmail(users, email)
    ensures WithoutEmail(users, email) == users
  {
    FilterKeepsAll(users, (u: User) => u.email != email);
  }

  function WithRoleOf(users: seq<User>, role: Role): seq<User>
  {
    Filter(users, (u: User) => u.role == role)
  }

  /** The two tables of the page. */
  function AdminUsers(users: seq<User>): seq<User> { WithRoleOf(users, Admin) }
  function VolunteerUsers(users: seq<User>): seq<User> { WithRoleOf(users, Volunteer) }

  /** The two tables hold exactly the admin and the volunteer entries, so
      super administrators appear in neither, and with the super
      administrators they account for every entry. */
  lemma {:induction false} TablesPartitionRegistry(users: seq<User>)
    ensures forall u :: u in AdminUsers(users) <==> u in users && u.role == Admin
    ensures forall u :: u in VolunteerUsers(users) <==> u in users && u.role == Volunteer
    ensures |AdminUsers(users)| + |VolunteerUsers(users)| + |WithRoleOf(users, SuperAdmin)| == |users|
  {
    forall u ensures u in AdminUsers(users) <==> u in users && u.role == Admin {
      FilterMembership(users, (u: User) => u.role == Admin, u);
    }
    forall u ensures u in VolunteerUsers(users) <==> u in users && u.role == Volunteer {
      FilterMembership(users, (u: User) => u.role == Volunteer, u);
    }
    RoleCountsAddUp(users);
  }

  lemma {:induction false} RoleCountsAddUp(users: seq<User>)
    ensures |WithRoleOf(users, Admin)| + |WithRoleOf(users, Volunteer)| + |WithRoleOf(users, SuperAdmin)| == |users|
  {
    if users != [] {
      RoleCountsAddUp(users[1..]);
    }
  }

  class UserManagementPage {
    var users: seq<User>
    var error: Option<string>
    const storage: LocalStorage

    constructor (storage: LocalStorage)
      ensures this.storage == storage && users == [] && error == None
    {
      this.storage := storage;
      users, error := [], None;
    }

    /** The page's list and the stored registry agree. */
    ghost predicate Persisted()
      reads this, storage
    {
      storage.users == List(users)
    }

    /** `loadUsers`: an empty (or absent) registry is replaced by the three
        approved seeds, which are also written back. */
    method LoadUsers(createdAt: string)
      modifies this, storage
      ensures storage.strings == old(storage.strings) && storage.invoices == old(storage.invoices)
      ensures old(storage.users).Corrupt? ==>
                error == Some("Failed to load users") && users == old(users) && storage.users == old(storage.users)
      ensures ReadList(old(storage.users)) == Ok([]) ==>
                users == SeedUsers(createdAt) && storage.users == List(users) && error == old(error)
      ensures old(storage.users).List? && old(storage.users).items != [] ==>
                users == old(storage.users).items && storage.users == old(storage.users) && error == old(error)
      ensures !old(storage.users).Corrupt? ==> Persisted()
    {
      var stored := ReadList(storage.users);
      if stored.Err? {
        error := Some("Failed to load users");
      } else if |stored.value| == 0 {
        var seeds := SeedUsers(createdAt);
        storage.SetUsers(seeds);
        users := seeds;
      } else {
        users := stored.value;
      }
    }

    method HandleApprove(email: string)
      modifies this, storage
      ensures users == WithStatus(old(users), email, Approved)
      ensures Persisted() && error == old(error)
      ensures storage.strings == old(storage.strings) && storage.invoices == old(storage.invoices)
    {
      var updated := WithStatus(users, email, Approved);
      storage.SetUsers(updated);
      users := updated;
    }

    method HandleReject(email: string)
      modifies this, storage
      ensures users == WithStatus(old(users), email, Rejected)
      ensures Persisted() && error == old(error)
      ensures storage.strings == old(storage.strings) && storage.invoices == old(storage.invoices)
    {
      var updated := WithStatus(users, email, Rejected);
      storage.SetUsers(updated);
      users := updated;
    }

    method HandleDelete(email: string)
      modifies this, storage
      ensures users == WithoutEmail(old(users), email)
      ensures Persisted() && error == old(error)
      ensures storage.strings == old(storage.strings) && storage.invoices == old(storage.invoices)
    {
      var updated := WithoutEmail(users, email);
      storage.SetUsers(updated);
      users := updated;
    }

    /** `handleRoleChange`: no check on the entry's current role. */
    method HandleRoleChange(email: string, newRole: Role)
      modifies this, storage
      ensures users == WithRole(old(users), email, newRole)
      ensures Persisted() && error == old(error)
      ensures storage.strings == old(storage.strings) && storage.invoices == old(storage.invoices)
    {
      var updated := WithRole(users, email, newRole);
      storage.SetUsers(updated);
      users := updated;
    }
  }
}
