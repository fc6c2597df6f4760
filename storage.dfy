/** The records the pages keep in the browser's key/value store, and the
    store itself.

    Plain keys (`isAuthenticated`, `userRole`, `userEmail`, `role`,
    `lastRegisteredEmail`) hold strings. Two keys hold JSON arrays of
    records: `users` (the user registry) and `mockInvoices` (the invoice
    list). The model keeps those two as typed slots instead of JSON text. */
module Storage {
  import opened Common

  /** Approval state of a registry entry. */
  datatype Status = Pending | Approved | Rejected

  /** A registry entry. The seed accounts that the login page merges in
      carry neither a status nor a creation time, so both are optional. */
  datatype User = User(
    fullName: string,
    email: string,
    password: string,
    role: Role,
    status: Option<Status>,
    createdAt: Option<string>)

  /** An invoice as the invoice pages store it. The add form saves no
      `status`, and its `amount` comes from `parseFloat`, whose NaN the JSON
      text keeps as `null`: both are optional. */
  datatype Invoice = Invoice(
    id: int,
    vendor: string,
    vendorEmail: string,
    vendorNumber: string,
    invoiceId: string,
    invoiceDate: string,
    dueDate: string,
    amount: Option<real>,
    paymentMethod: string,
    paymentStatus: string,
    createdBy: string,
    createdAt: string,
    status: Option<string>)

  /** Whether some entry of `users` has this email (`users.some(u => u.email === email)`). */
  predicate HasEmail(users: seq<User>, email: string)
  {
    exists i :: 0 <= i < |users| && users[i].email == email
  }

  /** No two registry entries share an email. */
  predicate UniqueEmails(users: seq<User>)
  {
    forall i, j :: 0 <= i < j < |users| ==> users[i].email != users[j].email
  }

  /** What a list-valued key holds: nothing (or the empty string, which
      every reader treats the same way), text that `JSON.parse` rejects or
      that is not an array of records, or a list. */
  datatype Stored<T> = Absent | Corrupt | List(items: seq<T>)

  /** The list a reader obtains with `JSON.parse(getItem(key) || '[]')`:
      an absent key reads as the empty list, corrupt text throws. */
  function ReadList<T>(s: Stored<T>): (r: Result<seq<T>>)
    ensures r.Err? <==> s.Corrupt?
    ensures s.Absent? ==> r == Ok([])
    ensures s.List? ==> r == Ok(s.items)
  {
    match s
    case Absent => Ok([])
    case Corrupt => Err("SyntaxError")
    case List(items) => Ok(items)
  }

  /** The browser's `localStorage`, shared by every page. */
  class LocalStorage {
    var strings: map<string, string>
    var users: Stored<User>
    var invoices: Stored<Invoice>

    constructor (strings: map<string, string>, users: Stored<User>, invoices: Stored<Invoice>)
      ensures this.strings == strings && this.users == users && this.invoices == invoices
    {
      this.strings := strings;
      this.users := users;
      this.invoices := invoices;
    }

    /** `getItem` on a plain key. */
    function GetItem(key: string): (v: Option<string>)
      reads this
      ensures v.Some? <==> key in strings
      ensures v.Some? ==> v.value == strings[key]
    {
      if key in strings then Some(strings[key]) else None
    }

    method SetItem(key: string, value: string)
      modifies this
      ensures strings == old(strings)[key := value]
      ensures users == old(users) && invoices == old(invoices)
    {
      strings := strings[key := value];
    }

    method RemoveItem(key: string)
      modifies this
      ensures strings == old(strings) - {key}
      ensures users == old(users) && invoices == old(invoices)
    {
      strings := strings - {key};
    }

    /** `setItem('users', JSON.stringify(list))`. */
    method SetUsers(list: seq<User>)
      modifies this
      ensures users == List(list)
      ensures strings == old(strings) && invoices == old(invoices)
    {
      users := List(list);
    }

    /** `setItem('mockInvoices', JSON.stringify(list))`. */
    method SetInvoices(list: seq<Invoice>)
      modifies this
      ensures invoices == List(list)
      ensures strings == old(strings) && users == old(users)
    {
      invoices := List(list);
    }
  }
}
