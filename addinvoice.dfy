/** The new-invoice form: the amount field's sanitiser, the required-field
    test, and the submit handler that appends to the stored invoice list
    and resets the form. */
module AddInvoicePage {
  import opened Common
  import opened Storage
  import opened AuthContext

  /** The characters the amount field lets through (`/[^0-9.]/g` removes the rest). */
  predicate IsAmountChar(c: char)
  {
    '0' <= c <= '9' || c == '.'
  }

  /** The amount field's `onChange`: every character that is not a digit
      or a dot is dropped. */
  function SanitizeAmount(s: string): (r: string)
    ensures forall i :: 0 <= i < |r| ==> IsAmountChar(r[i])
    ensures forall c :: c in r <==> c in s && IsAmountChar(c)
    ensures IsSubsequence(r, s)
    ensures forall c :: IsAmountChar(c) ==> multiset(r)[c] == multiset(s)[c]
  {
    forall c ensures c in Filter(s, IsAmountChar) <==> c in s && IsAmountChar(c) {
      FilterMembership(s, IsAmountChar, c);
    }
    forall c | IsAmountChar(c) ensures multiset(Filter(s, IsAmountChar))[c] == multiset(s)[c] {
      FilterKeepsCount(s, IsAmountChar, c);
    }
    FilterIsSubsequence(s, IsAmountChar);
    Filter(s, IsAmountChar)
  }

  /** Input that is already clean passes unchanged; so sanitising twice is
      sanitising once. */
  lemma SanitizeAmountIdempotent(s: string)
    ensures (forall i :: 0 <= i < |s| ==> IsAmountChar(s[i])) ==> SanitizeAmount(s) == s
    ensures SanitizeAmount(SanitizeAmount(s)) == SanitizeAmount(s)
  {
    FilterKeepsAll(s, IsAmountChar);
    FilterKeepsAll(SanitizeAmount(s), IsAmountChar);
  }

  /** `userEmail || 'Unknown'`. */
  function CreatedBy(userEmail: Option<string>): (r: string)
    ensures Present(userEmail) ==> r == userEmail.value
    ensures !Present(userEmail) ==> r == "Unknown"
  {
    if Present(userEmail) then userEmail.value else "Unknown"
  }

  const MissingFields := "Failed to Create Invoice. Please check your details."
  const SaveFailed := "Failed to save invoice. Please try again."

  /** The nine form fields. */
  datatype Form = Form(
    vendorName: string, vendorEmail: string, vendorNumber: string, invoiceId: string,
    invoiceDate: string, dueDate: string, amount: string, paymentMethod: string, paymentStatus: string)

  /** The form as it first renders and after a successful submission: the
      two selects on their first option, every text field empty. */
  const EmptyForm := Form("", "", "", "", "", "", "", "Bank Transfer", "Pending")

  class AddInvoicePage {
    var vendorName: string
    var vendorEmail: string
    var vendorNumber: string
    var invoiceId: string
    var invoiceDate: string
    var dueDate: string
    var amount: string
    var paymentMethod: string
    var paymentStatus: string
    var success: bool
    var error: Option<string>
    /** The signed-in email the page reads from the session. */
    const userEmail: Option<string>
    const storage: LocalStorage

    function Fields(): Form
      reads this
    {
      Form(vendorName, vendorEmail, vendorNumber, invoiceId, invoiceDate, dueDate, amount,
           paymentMethod, paymentStatus)
    }

    constructor (storage: LocalStorage, userEmail: Option<string>)
      ensures this.storage == storage && this.userEmail == userEmail
      ensures Fields() == EmptyForm && !success && error == None
    {
      this.storage := storage;
      this.userEmail := userEmail;
      vendorName, vendorEmail, vendorNumber, invoiceId := "", "", "", "";
      invoiceDate, dueDate, amount := "", "", "";
      paymentMethod, paymentStatus := "Bank Transfer", "Pending";
      success, error := false, None;
    }

    /** All nine fields are non-empty. */
    predicate AllFilled()
      reads this
    {
      vendorName != "" && vendorEmail != "" && vendorNumber != "" && invoiceId != ""
      && invoiceDate != "" && dueDate != "" && amount != "" && paymentMethod != "" && paymentStatus != ""
    }

    /** The record a submission builds: no status, the amount as `parseFloat`
        reads it (`None` for NaN), the author from the session. */
    function NewInvoice(id: int, createdAt: string, parseFloat: string -> Option<real>): (inv: Invoice)
      reads this
      ensures inv.id == id && inv.createdAt == createdAt && inv.status.None?
      ensures inv.vendor == vendorName && inv.amount == parseFloat(amount)
      ensures inv.createdBy == CreatedBy(userEmail)
      ensures inv.vendorEmail == vendorEmail && inv.vendorNumber == vendorNumber && inv.invoiceId == invoiceId
      ensures inv.invoiceDate == invoiceDate && inv.dueDate == dueDate
      ensures inv.paymentMethod == paymentMethod && inv.paymentStatus == paymentStatus
    {
      Invoice(id, vendorName, vendorEmail, vendorNumber, invoiceId, invoiceDate, dueDate,
              parseFloat(amount), paymentMethod, paymentStatus, CreatedBy(userEmail), createdAt, None)
    }

    /** The nine setters run after a successful save. */
    method ResetFields()
      modifies this
      ensures Fields() == EmptyForm
      ensures success == old(success) && error == old(error)
    {
      vendorName, vendorEmail, vendorNumber, invoiceId := "", "", "", "";
      invoiceDate, dueDate, amount := "", "", "";
      paymentMethod, paymentStatus := "Bank Transfer", "Pending";
    }

    method OnAmountChange(input: string)
      modifies this
      ensures amount == SanitizeAmount(input)
      ensures Fields() == old(Fields()).(amount := SanitizeAmount(input))
      ensures success == old(success) && error == old(error)
    {
      amount := SanitizeAmount(input);
    }

    /** `handleSubmit`. `id` and `createdAt` are the clock readings the page
        takes; `scheduled` is the navigation to `/invoices` the page sets a
        timer for. */
    method HandleSubmit(id: int, createdAt: string, parseFloat: string -> Option<real>)
      returns (scheduled: Option<string>)
      modifies this, storage
      ensures storage.strings == old(storage.strings)
      ensures storage.users == old(storage.users)
      ensures !old(AllFilled()) ==>
                error == Some(MissingFields) && !success && scheduled == None
                && storage.invoices == old(storage.invoices)
      ensures old(AllFilled()) && old(storage.invoices).Corrupt? ==>
                error == Some(SaveFailed) && !success && scheduled == None
                && storage.invoices == old(storage.invoices)
      ensures old(AllFilled()) && !old(storage.invoices).Corrupt? ==>
                storage.invoices ==
                  List(ReadList(old(storage.invoices)).value + [old(NewInvoice(id, createdAt, parseFloat))])
                && success && error == None && Fields() == EmptyForm && scheduled == Some("/invoices")
      ensures !success ==> Fields() == old(Fields())
    {
      error, success := None, false;
      if !AllFilled() {
        error := Some(MissingFields);
        return None;
      }
      var inv := NewInvoice(id, createdAt, parseFloat);
      var existing := ReadList(storage.invoices);
      if existing.Err? {
        error := Some(SaveFailed);
        return None;
      }
      storage.SetInvoices(existing.value + [inv]);
      success := true;
      ResetFields();
      scheduled := Some("/invoices");
    }
  }
}
