/** The invoice list page: the first load (stored list or seeds), the
    status change and delete handlers, each persisted, and the three
    controls the session's role switches on. */
module InvoicesPage {
  import opened Common
  import opened Storage
  import opened AuthContext
  import opened Routes

  /** The three invoices the page starts with and seeds the store with. */
  const MockInvoices: seq<Invoice> := [
    Invoice(1, "Vendor A", "vendorA@example.com", "123-456-7890", "INV001", "2024-03-15", "2024-04-15",
            Some(1000.0), "Bank Transfer", "Pending", "volunteer@gmail.com", "2024-03-15T10:00:00Z", Some("Pending")),
    Invoice(2, "Vendor B", "vendorB@example.com", "098-765-4321", "INV002", "2024-03-14", "2024-04-14",
            Some(2500.0), "Credit Card", "Paid", "admin@gmail.com", "2024-03-14T11:30:00Z", Some("Approved")),
    Invoice(3, "Vendor C", "vendorC@example.com", "111-222-3333", "INV003", "2024-03-13", "2024-04-13",
            Some(750.0), "Cash", "Pending", "superadmin@gmail.com", "2024-03-13T09:00:00Z", Some("Paid"))
  ]

  /** Whether some invoice of the list has this id. */
  predicate HasId(invoices: seq<Invoice>, id: int)
  {
    exists i :: 0 <= i < |invoices| && invoices[i].id == id
  }

  /** `invoices.map(inv => inv.id === id ? {...inv, status} : inv)`. */
  function WithInvoiceStatus(invoices: seq<Invoice>, id: int, status: string): (r: seq<Invoice>)
    ensures |r| == |invoices|
    ensures forall i :: 0 <= i < |invoices| ==>
              r[i] == if invoices[i].id == id then invoices[i].(status := Some(status)) else invoices[i]
  {
    if invoices == [] then []
    else
      var inv := invoices[0];
      [if inv.id == id then inv.(status := Some(status)) else inv] + WithInvoiceStatus(invoices[1..], id, status)
  }

  /** Changing the status of an id no invoice has changes nothing, and the
      change keeps every id where it was. */
  lemma {:induction false} StatusChangeKeepsIds(invoices: seq<Invoice>, id: int, status: string)
    ensures forall i :: 0 <= i < |invoices| ==> WithInvoiceStatus(invoices, id, status)[i].id == invoices[i].id
    ensures !HasId(invoices, id) ==> WithInvoiceStatus(invoices, id, status) == invoices
  {
    var r := WithInvoiceStatus(invoices, id, status);
    if !HasId(invoices, id) {
      assert forall i :: 0 <= i < |invoices| ==> r[i] == invoices[i];
    }
  }

  /** `invoices.filter(inv => inv.id !== id)`. */
  function WithoutInvoice(invoices: seq<Invoice>, id: int): (r: seq<Invoice>)
    ensures !HasId(r, id)
    ensures forall inv :: inv in r <==> inv in invoices && inv.id != id
    ensures IsSubsequence(r, invoices)
    ensures forall inv: Invoice :: inv.id != id ==> multiset(r)[inv] == multiset(invoices)[inv]
  {
    var keep := (inv: Invoice) => inv.id != id;
    forall inv ensures inv in Filter(invoices, keep) <==> inv in invoices && keep(inv) {
      FilterMembership(invoices, keep, inv);
    }
    forall inv | keep(inv) ensures multiset(Filter(invoices, keep))[inv] == multiset(invoices)[inv] {
      FilterKeepsCount(invoices, keep, inv);
    }
    FilterIsSubsequence(invoices, keep);
    Filter(invoices, keep)
  }

  /** Deleting an id no invoice has leaves the list as it was. */
  lemma DeleteAbsentInvoice(invoices: seq<Invoice>, id: int)
    requires !HasId(invoices, id)
    ensures WithoutInvoice(invoices, id) == invoices
  {
    FilterKeepsAll(invoices, (inv: Invoice) => inv.id != id);
  }

  /** Which controls the page shows: the status selector, the Add button
      and the Delete buttons. */
  datatype Controls = Controls(statusEditor: bool, addButton: bool, deleteButton: bool)

  /** The controls for a session. The selector depends on the raw role
      string; the two buttons ask `hasPermission`, which throws for a role
      string outside the table, and then the page fails to render. */
  function PageControls(s: Session): (r: Result<Controls>)
    ensures r.Err? <==> HasPermission(s.userRole, "create_invoices").Err?
    ensures r.Ok? ==> (r.value.statusEditor <==> s.userRole == Some("admin") || s.userRole == Some("super_admin"))
    ensures r.Ok? ==> (r.value.addButton <==> HasPermission(s.userRole, "create_invoices") == Ok(true))
    ensures r.Ok? ==> (r.value.deleteButton <==> HasPermission(s.userRole, "delete_invoices") == Ok(true))
  {
    match (HasPermission(s.userRole, "create_invoices"), HasPermission(s.userRole, "delete_invoices"))
    case (Ok(add), Ok(del)) =>
      Ok(Controls(s.userRole == Some("admin") || s.userRole == Some("super_admin"), add, del))
    case _ => Err("TypeError")
  }

  /** Per role: administrators of both kinds edit statuses, only volunteers
      add, only the super administrator deletes. */
  lemma {:induction false} ControlsByRole(r: Role, email: string)
    ensures PageControls(SignedIn(r, email)) == Ok(Controls(r != Volunteer, r == Volunteer, r == SuperAdmin))
  {
    PermissionTableShape();
    match r
    case SuperAdmin =>
    case Admin =>
    case Volunteer =>
  }

  /** The Add button is shown exactly to the sessions that the guard of
      `/invoices/new` lets through. */
  lemma {:induction false} AddButtonMatchesGuard(r: Role, email: string)
    ensures PageControls(SignedIn(r, email)).Ok?
    ensures PageControls(SignedIn(r, email)).value.addButton <==>
            Navigate(SignedIn(r, email), "/invoices/new") == Show("/invoices/new")
  {
    ControlsByRole(r, email);
    PermissionGatedRoute(r, email, "/invoices/new", "create_invoices");
    PermissionTableShape();
  }

  class InvoicesPage {
    var invoices: seq<Invoice>
    var loading: bool
    var error: Option<string>
    const storage: LocalStorage

    /** First render: the seeds are shown while loading. */
    constructor (storage: LocalStorage)
      ensures this.storage == storage
      ensures invoices == MockInvoices && loading && error == None
    {
      this.storage := storage;
      invoices, loading, error := MockInvoices, true, None;
    }

    /** The page's list and the stored list agree. */
    ghost predicate Persisted()
      reads this, storage
    {
      storage.invoices == List(invoices)
    }

    /** The mount effect: a non-empty stored list is shown; an empty or
        absent one is replaced by the seeds, which are written back;
        unreadable text sets the error and keeps what is shown. */
    method FetchData()
      modifies this, storage
      ensures !loading
      ensures storage.strings == old(storage.strings) && storage.users == old(storage.users)
      ensures old(storage.invoices).Corrupt? ==>
                error == Some("Failed to fetch data") && invoices == old(invoices)
                && storage.invoices == old(storage.invoices)
      ensures old(storage.invoices).List? && old(storage.invoices).items != [] ==>
                invoices == old(storage.invoices).items && storage.invoices == old(storage.invoices)
                && error == old(error)
      ensures ReadList(old(storage.invoices)) == Ok([]) ==>
                invoices == MockInvoices && storage.invoices == List(MockInvoices) && error == old(error)
      ensures !old(storage.invoices).Corrupt? ==> Persisted()
    {
      var stored := ReadList(storage.invoices);
      if stored.Err? {
        error := Some("Failed to fetch data");
      } else if |stored.value| > 0 {
        invoices := stored.value;
      } else {
        invoices := MockInvoices;
        storage.SetInvoices(MockInvoices);
      }
      loading := false;
    }

    method HandleStatusChange(id: int, newStatus: string)
      modifies this, storage
      ensures invoices == WithInvoiceStatus(old(invoices), id, newStatus)
      ensures Persisted()
      ensures loading == old(loading) && error == old(error)
      ensures storage.strings == old(storage.strings) && storage.users == old(storage.users)
    {
      var updated := WithInvoiceStatus(invoices, id, newStatus);
      invoices := updated;
      storage.SetInvoices(updated);
    }

    method HandleDeleteInvoice(id: int)
      modifies this, storage
      ensures invoices == WithoutInvoice(old(invoices), id)
      ensures Persisted()
      ensures loading == old(loading) && error == old(error)
      ensures storage.strings == old(storage.strings) && storage.users == old(storage.users)
    {
      var updated := WithoutInvoice(invoices, id);
      invoices := updated;
      storage.SetInvoices(updated);
    }
  }
}
