/** The filterable invoice table over the mock service: the five filters,
    the effect that reapplies them one after the other, the status chip
    colour, and Clear Filters. */
module InvoicesTable {
  import opened Common
  import opened Api

  /** ASCII `toLowerCase` of one character. */
  function Lower(c: char): char
  {
    if 'A' <= c <= 'Z' then (c as int + 32) as char else c
  }

  /** `toLowerCase`, character by character. */
  function LowerStr(s: string): (r: string)
    ensures |r| == |s|
    ensures forall i :: 0 <= i < |s| ==> r[i] == Lower(s[i])
  {
    if s == [] then [] else [Lower(s[0])] + LowerStr(s[1..])
  }

  /** Lowering an already lowered string changes nothing. */
  lemma LowerStrIdempotent(s: string)
    ensures LowerStr(LowerStr(s)) == LowerStr(s)
  {
  }

  /** `sub` occurs in `s` starting at position `i`. */
  predicate OccursAt(s: string, sub: string, i: nat)
  {
    i + |sub| <= |s| && s[i..i + |sub|] == sub
  }

  /** `s.includes(sub)`. */
  predicate Contains(s: string, sub: string)
  {
    exists i: nat :: i <= |s| && OccursAt(s, sub, i)
  }

  /** The five filter inputs; `""` means the filter is off. */
  datatype Filters = Filters(status: string, search: string, minAmount: string, maxAmount: string, date: string)

  const NoFilters := Filters("", "", "", "", "")

  /** Whether `inv` passes filter number `k` (1 to 5, in the order the
      effect applies them). `num` is `parseFloat` (`None` for NaN) and
      `day` is the time value of `new Date(...)` (`None` for an invalid
      date); a comparison with NaN is false. */
  predicate Passes(k: nat, f: Filters, num: string -> Option<real>, day: string -> Option<int>, inv: ApiInvoice)
  {
    if k == 1 then f.status == "" || inv.status == f.status
    else if k == 2 then f.search == "" || Contains(LowerStr(inv.vendor), LowerStr(f.search))
    else if k == 3 then f.minAmount == "" || (num(f.minAmount).Some? && inv.amount >= num(f.minAmount).value)
    else if k == 4 then f.maxAmount == "" || (num(f.maxAmount).Some? && inv.amount <= num(f.maxAmount).value)
    else if k == 5 then
      f.date == "" || (day(inv.date).Some? && day(f.date).Some? && day(inv.date).value >= day(f.date).value)
    else true
  }

  /** `inv` passes the first `k` filters. */
  predicate PassesFirst(k: nat, f: Filters, num: string -> Option<real>, day: string -> Option<int>, inv: ApiInvoice)
  {
    if k == 0 then true else PassesFirst(k - 1, f, num, day, inv) && Passes(k, f, num, day, inv)
  }

  /** Filter `k` as the callback handed to `filter`. */
  function Stage(k: nat, f: Filters, num: string -> Option<real>, day: string -> Option<int>): ApiInvoice -> bool
  {
    inv => Passes(k, f, num, day, inv)
  }

  /** The first `k` filters together, as one callback. */
  function Upto(k: nat, f: Filters, num: string -> Option<real>, day: string -> Option<int>): ApiInvoice -> bool
  {
    inv => PassesFirst(k, f, num, day, inv)
  }

  /** Passing the first `k` filters is passing each of them. */
  lemma {:induction false} PassesFirstEach(
    k: nat, f: Filters, num: string -> Option<real>, day: string -> Option<int>, inv: ApiInvoice)
    ensures PassesFirst(k, f, num, day, inv) <==> forall j :: 1 <= j <= k ==> Passes(j, f, num, day, inv)
  {
    if k > 0 {
      PassesFirstEach(k - 1, f, num, day, inv);
    }
  }

  /** Whether filter `k` is on. */
  predicate Active(k: nat, f: Filters)
  {
    if k == 1 then f.status != ""
    else if k == 2 then f.search != ""
    else if k == 3 then f.minAmount != ""
    else if k == 4 then f.maxAmount != ""
    else if k == 5 then f.date != ""
    else false
  }

  /** The invoices the table shows for the given filters: those passing
      all five, in their original order. */
  function Filtered(invoices: seq<ApiInvoice>, f: Filters, num: string -> Option<real>, day: string -> Option<int>)
    : (r: seq<ApiInvoice>)
    ensures forall inv :: inv in r <==>
              inv in invoices && forall k :: 1 <= k <= 5 ==> Passes(k, f, num, day, inv)
    ensures IsSubsequence(r, invoices)
    ensures forall inv :: (forall k :: 1 <= k <= 5 ==> Passes(k, f, num, day, inv)) ==>
              multiset(r)[inv] == multiset(invoices)[inv]
  {
    var keep := Upto(5, f, num, day);
    forall inv ensures inv in Filter(invoices, keep) <==>
                         inv in invoices && forall k :: 1 <= k <= 5 ==> Passes(k, f, num, day, inv) {
      FilterMembership(invoices, keep, inv);
      assert keep(inv) == PassesFirst(5, f, num, day, inv);
      PassesFirstEach(5, f, num, day, inv);
    }
    FilterIsSubsequence(invoices, keep);
    forall inv | forall k :: 1 <= k <= 5 ==> Passes(k, f, num, day, inv)
      ensures multiset(Filter(invoices, keep))[inv] == multiset(invoices)[inv]
    {
      PassesFirstEach(5, f, num, day, inv);
      assert keep(inv) == PassesFirst(5, f, num, day, inv);
      FilterKeepsCount(invoices, keep, inv);
    }
    Filter(invoices, keep)
  }

  /** With every filter off the whole list is shown. */
  lemma {:induction false} NoFiltersShowAll(invoices: seq<ApiInvoice>, num: string -> Option<real>, day: string -> Option<int>)
    ensures Filtered(invoices, NoFilters, num, day) == invoices
  {
    forall inv: ApiInvoice ensures PassesFirst(5, NoFilters, num, day, inv) {
      PassesFirstEach(5, NoFilters, num, day, inv);
    }
    FilterKeepsAll(invoices, Upto(5, NoFilters, num, day));
  }

  /** Running the five filters in the opposite order gives the same list. */
  lemma {:induction false} FilterOrderIrrelevant(
    invoices: seq<ApiInvoice>, f: Filters, num: string -> Option<real>, day: string -> Option<int>)
    ensures Filtered(invoices, f, num, day) ==
            Filter(Filter(Filter(Filter(Filter(invoices,
              Stage(5, f, num, day)), Stage(4, f, num, day)), Stage(3, f, num, day)),
              Stage(2, f, num, day)), Stage(1, f, num, day))
  {
    var p5 := Stage(5, f, num, day);
    var p4 := Stage(4, f, num, day);
    var p3 := Stage(3, f, num, day);
    var p2 := Stage(2, f, num, day);
    var p1 := Stage(1, f, num, day);
    var q54 := (inv: ApiInvoice) => p5(inv) && p4(inv);
    var q543 := (inv: ApiInvoice) => q54(inv) && p3(inv);
    var q5432 := (inv: ApiInvoice) => q543(inv) && p2(inv);
    var q54321 := (inv: ApiInvoice) => q5432(inv) && p1(inv);
    FilterThen(invoices, p5, p4, q54);
    FilterThen(invoices, q54, p3, q543);
    FilterThen(invoices, q543, p2, q5432);
    FilterThen(invoices, q5432, p1, q54321);
    forall inv: ApiInvoice ensures q54321(inv) == PassesFirst(5, f, num, day, inv) {
      PassesFirstEach(5, f, num, day, inv);
    }
    FilterSame(invoices, q54321, Upto(5, f, num, day));
  }

  /** One step of the effect: an active filter narrows the list, an
      inactive one (which accepts everything) leaves it. */
  lemma {:induction false} StepKeepsInvariant(
    invoices: seq<ApiInvoice>, k: nat, f: Filters, num: string -> Option<real>, day: string -> Option<int>)
    requires 1 <= k <= 5
    ensures Active(k, f) ==>
              Filter(Filter(invoices, Upto(k - 1, f, num, day)), Stage(k, f, num, day))
              == Filter(invoices, Upto(k, f, num, day))
    ensures !Active(k, f) ==>
              Filter(invoices, Upto(k - 1, f, num, day)) == Filter(invoices, Upto(k, f, num, day))
  {
    if Active(k, f) {
      FilterThen(invoices, Upto(k - 1, f, num, day), Stage(k, f, num, day), Upto(k, f, num, day));
    } else {
      FilterSame(invoices, Upto(k - 1, f, num, day), Upto(k, f, num, day));
    }
  }

  /** The filter effect: `data` starts as a copy of the list and each
      active filter replaces it by its filtered version. */
  method ApplyFilters(invoices: seq<ApiInvoice>, f: Filters, num: string -> Option<real>, day: string -> Option<int>)
    returns (data: seq<ApiInvoice>)
    ensures data == Filtered(invoices, f, num, day)
  {
    data := invoices;
    FilterKeepsAll(invoices, Upto(0, f, num, day));
    assert data == Filter(invoices, Upto(0, f, num, day));
    StepKeepsInvariant(invoices, 1, f, num, day);
    if f.status != "" {
      data := Filter(data, Stage(1, f, num, day));
    }
    assert data == Filter(invoices, Upto(1, f, num, day));
    StepKeepsInvariant(invoices, 2, f, num, day);
    if f.search != "" {
      data := Filter(data, Stage(2, f, num, day));
    }
    assert data == Filter(invoices, Upto(2, f, num, day));
    StepKeepsInvariant(invoices, 3, f, num, day);
    if f.minAmount != "" {
      data := Filter(data, Stage(3, f, num, day));
    }
    assert data == Filter(invoices, Upto(3, f, num, day));
    StepKeepsInvariant(invoices, 4, f, num, day);
    if f.maxAmount != "" {
      data := Filter(data, Stage(4, f, num, day));
    }
    assert data == Filter(invoices, Upto(4, f, num, day));
    StepKeepsInvariant(invoices, 5, f, num, day);
    if f.date != "" {
      data := Filter(data, Stage(5, f, num, day));
    }
    assert data == Filter(invoices, Upto(5, f, num, day));
  }

  /** The colour of a status chip. */
  datatype ChipColor = Success | Warning | Error | Info | Default

  /** `getStatusColor`: a switch on the lowered status. */
  function StatusColor(status: string): (c: ChipColor)
    ensures c == Success <==> LowerStr(status) == "approved"
    ensures c == Warning <==> LowerStr(status) == "pending"
    ensures c == Error <==> LowerStr(status) == "rejected" || LowerStr(status) == "unpaid"
    ensures c == Info <==> LowerStr(status) == "paid"
  {
    var s := LowerStr(status);
    if s == "approved" then Success
    else if s == "pending" then Warning
    else if s == "rejected" || s == "unpaid" then Error
    else if s == "paid" then Info
    else Default
  }

  /** The chip colour does not depend on letter case. */
  lemma StatusColorIgnoresCase(status: string)
    ensures StatusColor(LowerStr(status)) == StatusColor(status)
  {
    LowerStrIdempotent(status);
  }

  class InvoiceTable {
    var invoices: seq<ApiInvoice>
    var filtered: seq<ApiInvoice>
    var loading: bool
    var error: Option<string>
    var statusFilter: string
    var searchTerm: string
    var minAmount: string
    var maxAmount: string
    var filterDate: string

    constructor ()
      ensures invoices == [] && filtered == [] && loading && error == None
      ensures CurrentFilters() == NoFilters
    {
      invoices, filtered, loading, error := [], [], true, None;
      statusFilter, searchTerm, minAmount, maxAmount, filterDate := "", "", "", "", "";
    }

    function CurrentFilters(): Filters
      reads this
    {
      Filters(statusFilter, searchTerm, minAmount, maxAmount, filterDate)
    }

    /** The mount effect: fetch from the service; a failure shows its
        message. `fail` is the service's simulated failure. */
    method FetchInvoices(api: MockApi, fail: bool)
      modifies this
      ensures !loading && CurrentFilters() == old(CurrentFilters())
      ensures !fail ==> invoices == api.invoices && filtered == api.invoices && error == old(error)
      ensures fail ==> error == Some("Failed to fetch invoices. Please try again later.")
                       && invoices == old(invoices) && filtered == old(filtered)
    {
      var r := api.GetInvoices(fail);
      if r.Ok? {
        invoices, filtered := r.value, r.value;
      } else {
        error := Some(r.message);
      }
      loading := false;
    }

    /** The filter effect, run whenever the list or a filter changes. */
    method RefreshFiltered(num: string -> Option<real>, day: string -> Option<int>)
      modifies this
      ensures filtered == Filtered(invoices, CurrentFilters(), num, day)
      ensures invoices == old(invoices) && CurrentFilters() == old(CurrentFilters())
      ensures loading == old(loading) && error == old(error)
    {
      filtered := ApplyFilters(invoices, CurrentFilters(), num, day);
    }

    /** Clear Filters: the five inputs go back to empty. */
    method ClearFilters()
      modifies this
      ensures CurrentFilters() == NoFilters
      ensures invoices == old(invoices) && filtered == old(filtered)
      ensures loading == old(loading) && error == old(error)
    {
      searchTerm, statusFilter, minAmount, maxAmount, filterDate := "", "", "", "", "";
    }

    /** A click on Clear Filters followed by the filter effect it triggers:
        the whole list is shown again. */
    method ClearFiltersThenRefresh(num: string -> Option<real>, day: string -> Option<int>)
      modifies this
      ensures CurrentFilters() == NoFilters && filtered == invoices
      ensures invoices == old(invoices) && loading == old(loading) && error == old(error)
    {
      ClearFilters();
      RefreshFiltered(num, day);
      NoFiltersShowAll(invoices, num, day);
    }
  }
}
