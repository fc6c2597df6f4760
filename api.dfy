/** The mock service layer: a fixed login, an in-memory invoice list with
    an id counter, and an in-memory user list, all changed in place. The
    simulated network delay is dropped; the simulated random failures are
    explicit `fail` parameters. */
module Api {
  import opened Common

  const MockEmail := "admin@example.com"
  const MockPassword := "password123"
  const MockToken := "mockJwtToken123"

  datatype LoginReply = LoginReply(token: string, id: int, email: string, role: string)

  /** `login`: only the one mock account succeeds, always as `admin`. */
  function Login(email: string, password: string): (r: Result<LoginReply>)
    ensures r.Ok? <==> email == MockEmail && password == MockPassword
    ensures r.Ok? ==> r.value.role == "admin" && r.value.email == email && r.value.token == MockToken
    ensures r.Err? ==> r.message == "Invalid credentials"
  {
    if email == MockEmail && password == MockPassword then
      Ok(LoginReply(MockToken, 1, MockEmail, "admin"))
    else
      Err("Invalid credentials")
  }

  datatype ApiInvoice = ApiInvoice(id: int, vendor: string, amount: real, date: string, status: string)
  datatype ApiUser = ApiUser(id: int, email: string, role: string)

  /** The characters `String.prototype.trim` removes (the ASCII ones). */
  predicate IsSpace(c: char)
  {
    c == ' ' || c == '\t' || c == '\n' || c == '\r' || c == '\U{000B}' || c == '\U{000C}'
  }

  /** `!vendor || vendor.trim().length === 0`. */
  predicate Blank(s: string)
  {
    forall i :: 0 <= i < |s| ==> IsSpace(s[i])
  }

  /** The roles the user endpoints accept. */
  predicate ManagedRole(role: string)
  {
    role == "admin" || role == "volunteer"
  }

  /** `email.includes('@')`. */
  predicate HasAt(email: string)
  {
    exists i :: 0 <= i < |email| && email[i] == '@'
  }

  const SeedInvoices: seq<ApiInvoice> := [
    ApiInvoice(1, "Acme Corp", 250.00, "2025-06-01", "Paid"),
    ApiInvoice(2, "Globex Inc", 1000.00, "2025-06-03", "Unpaid"),
    ApiInvoice(3, "Initech", 300.00, "2025-06-04", "Pending"),
    ApiInvoice(4, "Hooli", 500.50, "2025-06-05", "Approved")
  ]

  const SeedUsers: seq<ApiUser> := [
    ApiUser(1, "admin@example.com", "admin"),
    ApiUser(2, "volunteer@example.com", "volunteer")
  ]

  /** The ids of `invoices` are distinct and all below `next`. */
  predicate FreshIds(invoices: seq<ApiInvoice>, next: int)
  {
    (forall i :: 0 <= i < |invoices| ==> invoices[i].id < next) &&
    (forall i, j :: 0 <= i < j < |invoices| ==> invoices[i].id != invoices[j].id)
  }

  /** The module-level state of the service. */
  class MockApi {
    var invoices: seq<ApiInvoice>
    var users: seq<ApiUser>
    var nextId: int

    /** Every id handed out so far is below the counter, and no two
        invoices share an id. */
    ghost predicate Valid()
      reads this
    {
      FreshIds(invoices, nextId)
    }

    /** Module load: the seed lists and `nextId = mockInvoices.length + 1`. */
    constructor ()
      ensures invoices == SeedInvoices && users == SeedUsers && nextId == 5
      ensures Valid()
    {
      invoices, users := SeedInvoices, SeedUsers;
      nextId := |SeedInvoices| + 1;
    }

    /** `getInvoices`. */
    method GetInvoices(fail: bool) returns (r: Result<seq<ApiInvoice>>)
      ensures r.Ok? <==> !fail
      ensures r.Ok? ==> r.value == invoices
      ensures r.Err? ==> r.message == "Failed to fetch invoices. Please try again later."
    {
      if fail {
        return Err("Failed to fetch invoices. Please try again later.");
      }
      return Ok(invoices);
    }

    /** `createInvoice`: blank vendor, then a non-positive amount, then the
        simulated failure; otherwise the new invoice, with the next id and
        status `Pending`, goes to the front. `today` is the date the
        original reads from the clock. */
    method CreateInvoice(vendor: string, amount: real, today: string, fail: bool)
      returns (r: Result<ApiInvoice>)
      requires Valid()
      modifies this
      ensures Valid()
      ensures users == old(users)
      ensures Blank(vendor) ==> r == Err("Vendor name is required")
      ensures !Blank(vendor) && amount <= 0.0 ==> r == Err("Amount must be greater than 0")
      ensures r.Err? ==> invoices == old(invoices) && nextId == old(nextId)
      ensures r.Ok? <==> !Blank(vendor) && amount > 0.0 && !fail
      ensures r.Ok? ==> r.value == ApiInvoice(old(nextId), vendor, amount, today, "Pending")
                        && invoices == [r.value] + old(invoices)
                        && nextId == old(nextId) + 1
      ensures r.Ok? ==> forall i :: 0 <= i < |old(invoices)| ==> old(invoices)[i].id != r.value.id
    {
      if Blank(vendor) {
        return Err("Vendor name is required");
      }
      if amount <= 0.0 {
        return Err("Amount must be greater than 0");
      }
      if fail {
        return Err("Failed to create invoice. Please try again.");
      }
      var created := ApiInvoice(nextId, vendor, amount, today, "Pending");
      nextId := nextId + 1;
      invoices := [created] + invoices;
      r := Ok(created);
    }

    /** `getUsers`. */
    method GetUsers() returns (r: Result<seq<ApiUser>>)
      ensures r == Ok(users)
    {
      return Ok(users);
    }

    /** `updateUserRole`: the first user with the id gets the new role. */
    method UpdateUserRole(userId: int, newRole: string) returns (r: Result<ApiUser>)
      modifies this
      ensures invoices == old(invoices) && nextId == old(nextId)
      ensures FindFirst(old(users), (u: ApiUser) => u.id == userId).None? ==>
                r == Err("User not found") && users == old(users)
      ensures FindFirst(old(users), (u: ApiUser) => u.id == userId).Some? && !ManagedRole(newRole) ==>
                r == Err("Invalid role") && users == old(users)
      ensures r.Ok? <==> FindFirst(old(users), (u: ApiUser) => u.id == userId).Some? && ManagedRole(newRole)
      ensures r.Ok? ==>
                var i := FindFirst(old(users), (u: ApiUser) => u.id == userId).value;
                r.value == old(users)[i].(role := newRole) && users == old(users)[i := r.value]
    {
      var found := FindFirst(users, (u: ApiUser) => u.id == userId);
      if found.None? {
        return Err("User not found");
      }
      if !ManagedRole(newRole) {
        return Err("Invalid role");
      }
      var i := found.value;
      var updated := users[i].(role := newRole);
      users := users[i := updated];
      r := Ok(updated);
    }

    /** `deleteUser`: splices out the first user with the id. */
    method DeleteUser(userId: int) returns (r: Result<ApiUser>)
      modifies this
      ensures invoices == old(invoices) && nextId == old(nextId)
      ensures FindFirst(old(users), (u: ApiUser) => u.id == userId).None? ==>
                r == Err("User not found") && users == old(users)
      ensures r.Ok? <==> FindFirst(old(users), (u: ApiUser) => u.id == userId).Some?
      ensures r.Ok? ==>
                var i := FindFirst(old(users), (u: ApiUser) => u.id == userId).value;
                r.value == old(users)[i] && r.value.id == userId
                && users == old(users)[..i] + old(users)[i + 1..]
                && |users| == |old(users)| - 1
                && multiset(users) + multiset{r.value} == multiset(old(users))
    {
      var found := FindFirst(users, (u: ApiUser) => u.id == userId);
      if found.None? {
        return Err("User not found");
      }
      var i := found.value;
      var deleted := users[i];
      assert users == users[..i] + [deleted] + users[i + 1..];
      users := users[..i] + users[i + 1..];
      r := Ok(deleted);
    }

    /** `createUser`: `id` is the clock reading (`Date.now()`) the original
        uses as the new user's id. */
    method CreateUser(email: string, role: string, id: int) returns (r: Result<ApiUser>)
      modifies this
      ensures invoices == old(invoices) && nextId == old(nextId)
      ensures !HasAt(email) ==> r == Err("Invalid email")
      ensures HasAt(email) && !ManagedRole(role) ==> r == Err("Invalid role")
      ensures r.Err? ==> users == old(users)
      ensures r.Ok? <==> HasAt(email) && ManagedRole(role)
      ensures r.Ok? ==> r.value == ApiUser(id, email, role) && users == old(users) + [r.value]
    {
      if !HasAt(email) {
        return Err("Invalid email");
      }
      if !ManagedRole(role) {
        return Err("Invalid role");
      }
      var created := ApiUser(id, email, role);
      users := users + [created];
      r := Ok(created);
    }
  }
}
