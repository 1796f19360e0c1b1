/**
 * The invoice service helpers of `invoices/utils.py`: the status update of
 * one stored invoice, the overdue listing, the per-user summary, the period
 * windows, the customer enrichment of a listing and the period statistics.
 * The invoice collection is the `InvoiceStore` object; `today` is a
 * parameter.
 */
module InvoiceUtils {
  import opened Wrappers
  import opened Calendar
  import opened Records
  import Folds
  import Ratios
  import Helpers

  // ---------------------------------------------------------------------
  // Status update

  /** The outcome of the status decision: a new status, or the comparison with a missing due date raised. */
  datatype Decision = Decided(status: Option<InvoiceStatus>) | NoDueDate

  /**
   * The decision of `update_invoice_status`: a paid invoice is `paid`; an
   * unpaid one past its due date is `overdue`; a pending draft is `sent`;
   * anything else keeps its stored status. An unpaid invoice without a due
   * date makes the date comparison raise.
   */
  function NewStatus(inv: Invoice, today: Day): (r: Decision)
    ensures r.NoDueDate? <==> !IsPaid(inv) && inv.dueDate.None?
    ensures IsPaid(inv) ==> r == Decided(Some(InvoiceStatus.Paid))
    ensures !IsPaid(inv) && inv.dueDate.Some? && today > inv.dueDate.value ==> r == Decided(Some(Overdue))
    ensures !IsPaid(inv) && inv.dueDate.Some? && today <= inv.dueDate.value ==>
      r == Decided(if inv.status == Some(Draft) && IsPending(inv) then Some(Sent) else inv.status)
    ensures r.Decided? && r.status == Some(Sent) && inv.status != Some(Sent) ==>
      inv.status == Some(Draft) && IsPending(inv) && today <= inv.dueDate.value
    ensures r.Decided? && r.status != inv.status ==> r.status in {Some(InvoiceStatus.Paid), Some(Overdue), Some(Sent)}
  {
    if IsPaid(inv) then Decided(Some(InvoiceStatus.Paid))
    else if inv.dueDate.None? then NoDueDate
    else if today > inv.dueDate.value then Decided(Some(Overdue))
    else if inv.status == Some(Draft) && IsPending(inv) then Decided(Some(Sent))
    else Decided(inv.status)
  }

  /** Deciding again after the decided status is stored changes nothing. */
  lemma NewStatusIdempotent(inv: Invoice, today: Day)
    requires NewStatus(inv, today).Decided?
    ensures var s := NewStatus(inv, today).status;
      NewStatus(inv.(status := s), today) == Decided(s)
  {
  }

  /** An unpaid invoice that is overdue on one day is overdue on every later day. */
  lemma OverdueStaysOverdue(inv: Invoice, today: Day, later: Day)
    requires !IsPaid(inv) && inv.dueDate.Some? && today > inv.dueDate.value && later >= today
    ensures NewStatus(inv, later) == Decided(Some(Overdue))
  {
  }

  /** The index of the first invoice with this id and owner (`find_one`). */
  function FindInvoice(invoices: seq<Invoice>, invoiceId: string, userId: string): (r: Option<nat>)
    ensures r.Some? ==>
      r.value < |invoices| && invoices[r.value].id == invoiceId && invoices[r.value].userId == userId
      && forall j :: 0 <= j < r.value ==> !(invoices[j].id == invoiceId && invoices[j].userId == userId)
    ensures r.None? <==> forall j :: 0 <= j < |invoices| ==> !(invoices[j].id == invoiceId && invoices[j].userId == userId)
  {
    if invoices == [] then None
    else if invoices[0].id == invoiceId && invoices[0].userId == userId then Some(0)
    else
      match FindInvoice(invoices[1..], invoiceId, userId)
      case None => None
      case Some(k) => Some(k + 1)
  }

  /** The `invoices` collection, whose documents the status update rewrites. */
  class InvoiceStore {
    var invoices: seq<Invoice>

    constructor(invoices: seq<Invoice>)
      ensures this.invoices == invoices
    {
      this.invoices := invoices;
    }

    /**
     * `update_invoice_status`: `false` when no invoice of this user has the
     * id or the decision raises; otherwise the decided status is written,
     * only when it differs from the stored one, and the result is `true`.
     */
    method UpdateInvoiceStatus(invoiceId: string, userId: string, today: Day) returns (ok: bool)
      modifies this
      ensures var found := FindInvoice(old(invoices), invoiceId, userId);
        ok <==> found.Some? && NewStatus(old(invoices)[found.value], today).Decided?
      ensures var found := FindInvoice(old(invoices), invoiceId, userId);
        if ok && NewStatus(old(invoices)[found.value], today).status != old(invoices)[found.value].status then
          invoices == old(invoices)[found.value := old(invoices)[found.value].(status := NewStatus(old(invoices)[found.value], today).status)]
        else invoices == old(invoices)
    {
      var found := FindInvoice(invoices, invoiceId, userId);
      if found.None? {
        return false;
      }
      var k := found.value;
      var decision := NewStatus(invoices[k], today);
      if decision.NoDueDate? {
        return false;
      }
      if decision.status != invoices[k].status {
        invoices := invoices[k := invoices[k].(status := decision.status)];
      }
      return true;
    }
  }

  // ---------------------------------------------------------------------
  // Overdue listing

  /** `{"user_id": u, "due_date": {"$lt": today}, "payment_status": {"$ne": "paid"}}`. */
  function OverdueOf(u: string, today: Day): Invoice -> bool {
    (inv: Invoice) => inv.userId == u && inv.dueDate.Some? && inv.dueDate.value < today && NotPaid(inv)
  }

  /** `get_overdue_invoices`: the user's unpaid invoices whose due date has passed. */
  function GetOverdueInvoices(invoices: seq<Invoice>, u: string, today: Day): (r: seq<Invoice>)
    ensures |r| <= |invoices|
    ensures forall i :: 0 <= i < |r| ==>
      r[i] in invoices && r[i].userId == u && r[i].dueDate.Some? && r[i].dueDate.value < today && NotPaid(r[i])
    ensures forall i :: 0 <= i < |invoices| && OverdueOf(u, today)(invoices[i]) ==> invoices[i] in r
  {
    Folds.FilterMembers(invoices, OverdueOf(u, today));
    Folds.Filter(invoices, OverdueOf(u, today))
  }

  /**
   * The listing holds exactly the user's unpaid invoices past their due
   * date, and the status update marks each of them overdue.
   */
  lemma OverdueListingAgreesWithStatus(invoices: seq<Invoice>, u: string, today: Day)
    ensures forall inv :: inv in GetOverdueInvoices(invoices, u, today) ==>
      inv in invoices && inv.userId == u && NewStatus(inv, today) == Decided(Some(Overdue))
    ensures forall i :: 0 <= i < |invoices| && OverdueOf(u, today)(invoices[i]) ==>
      invoices[i] in GetOverdueInvoices(invoices, u, today)
  {
    Folds.FilterMembers(invoices, OverdueOf(u, today));
    var r := GetOverdueInvoices(invoices, u, today);
    forall inv | inv in r
      ensures inv in invoices && inv.userId == u && NewStatus(inv, today) == Decided(Some(Overdue))
    {
      var i :| 0 <= i < |r| && r[i] == inv;
    }
  }

  // ---------------------------------------------------------------------
  // Period windows

  /**
   * `_get_period_dates(period)` on the date `today`. The quarter end is
   * found with the month-end idiom from the first day of the quarter's last
   * month.
   */
  function PeriodDates(period: string, today: Date): (r: (Date, Date))
    requires ValidDate(today)
    ensures ValidDate(r.0) && ValidDate(r.1)
  {
    var y, m := today.year, today.month;
    if period == "today" then (today, today)
    else if period == "week" then
      var start := MinusDays(today, Weekday(ToOrdinal(today)));
      (start, PlusDays(start, 6))
    else if period == "month" then
      (Date(y, m, 1), MonthEndByTrick(today))
    else if period == "quarter" then
      var quarter := (m - 1) / 3 + 1;
      var last := MonthEndByTrick(Date(y, 3 * quarter, 1));
      MonthEndByTrickIsLastDay(Date(y, 3 * quarter, 1));
      (Date(y, 3 * quarter - 2, 1), last)
    else if period == "year" then
      (Date(y, 1, 1), Date(y, 12, 31))
    else
      (MinusDays(today, 30), today)
  }

  /** The invoice windows are the report windows: both quarter ends are the last day of the month. */
  lemma PeriodDatesAgree(period: string, today: Date)
    requires ValidDate(today)
    ensures PeriodDates(period, today) == Helpers.DateRange(period, today)
  {
    if period == "quarter" {
      var quarter := (today.month - 1) / 3 + 1;
      MonthEndByTrickIsLastDay(Date(today.year, 3 * quarter, 1));
    }
  }

  /** The created-at window of a named period, as day ordinals. */
  function PeriodWindow(period: string, today: Date): (r: (Day, Day))
    requires ValidDate(today)
  {
    var (s, e) := PeriodDates(period, today);
    (ToOrdinal(s), ToOrdinal(e))
  }

  // ---------------------------------------------------------------------
  // Summary

  datatype InvoiceSummary = InvoiceSummary(
    totalInvoices: int,
    totalAmount: real,
    paidAmount: real,
    pendingAmount: real,
    overdueAmount: real,
    draftCount: int,
    sentCount: int,
    paidCount: int,
    overdueCount: int)

  /** The query of `calculate_invoice_summary`: the user's invoices, within the period's window when one is named. */
  function SummaryQuery(u: string, period: string, today: Date): Invoice -> bool
    requires ValidDate(today)
  {
    if period == "" then InvoicesOf(u)
    else
      var (s, e) := PeriodWindow(period, today);
      InWindow(u, s, e)
  }

  predicate OverdueUnpaid(inv: Invoice) {
    !IsPaid(inv) && HasOverdueStatus(inv)
  }

  predicate PendingUnpaid(inv: Invoice) {
    !IsPaid(inv) && !HasOverdueStatus(inv)
  }

  predicate IsDraft(inv: Invoice) {
    inv.status == Some(Draft)
  }

  predicate IsSent(inv: Invoice) {
    inv.status == Some(Sent)
  }

  /**
   * The summary of a selection: paid invoices by payment status; of the
   * rest, those with stored status `overdue` are overdue and all others
   * pending; drafts and sent invoices are counted by stored status.
   */
  function SummaryOf(sel: seq<Invoice>): InvoiceSummary {
    InvoiceSummary(
      |sel|,
      Folds.Sum(sel, Amount),
      Folds.Sum(Folds.Filter(sel, IsPaid), Amount),
      Folds.Sum(Folds.Filter(sel, PendingUnpaid), Amount),
      Folds.Sum(Folds.Filter(sel, OverdueUnpaid), Amount),
      |Folds.Filter(sel, IsDraft)|,
      |Folds.Filter(sel, IsSent)|,
      |Folds.Filter(sel, IsPaid)|,
      |Folds.Filter(sel, OverdueUnpaid)|)
  }

  /** The summary of one more invoice. */
  lemma SummarySnoc(sel: seq<Invoice>, inv: Invoice)
    ensures var a, b := SummaryOf(sel), SummaryOf(sel + [inv]);
      b.totalInvoices == a.totalInvoices + 1
      && b.totalAmount == a.totalAmount + inv.totalAmount
      && b.paidAmount == a.paidAmount + (if IsPaid(inv) then inv.totalAmount else 0.0)
      && b.paidCount == a.paidCount + (if IsPaid(inv) then 1 else 0)
      && b.overdueAmount == a.overdueAmount + (if OverdueUnpaid(inv) then inv.totalAmount else 0.0)
      && b.overdueCount == a.overdueCount + (if OverdueUnpaid(inv) then 1 else 0)
      && b.pendingAmount == a.pendingAmount + (if PendingUnpaid(inv) then inv.totalAmount else 0.0)
      && b.draftCount == a.draftCount + (if IsDraft(inv) then 1 else 0)
      && b.sentCount == a.sentCount + (if IsSent(inv) then 1 else 0)
  {
    SumFilterSnoc(sel, inv, IsPaid);
    SumFilterSnoc(sel, inv, OverdueUnpaid);
    SumFilterSnoc(sel, inv, PendingUnpaid);
    Folds.FilterSnoc(sel, inv, IsDraft, Amount);
    Folds.FilterSnoc(sel, inv, IsSent, Amount);
  }

  lemma SumFilterSnoc(sel: seq<Invoice>, inv: Invoice, p: Invoice -> bool)
    ensures |Folds.Filter(sel + [inv], p)| == |Folds.Filter(sel, p)| + (if p(inv) then 1 else 0)
    ensures Folds.Sum(Folds.Filter(sel + [inv], p), Amount) == Folds.Sum(Folds.Filter(sel, p), Amount) + (if p(inv) then inv.totalAmount else 0.0)
  {
    Folds.FilterSnoc(sel, inv, p, Amount);
    var tail := if p(inv) then [inv] else [];
    Folds.SumAppend(Folds.Filter(sel, p), tail, Amount);
    assert Folds.Sum(tail, Amount) == if p(inv) then inv.totalAmount else 0.0;
  }

  /**
   * `calculate_invoice_summary`: one pass over the selected invoices adding
   * each amount to the total and to exactly one of paid, overdue or pending.
   */
  method CalculateInvoiceSummary(invoices: seq<Invoice>, u: string, period: string, today: Date)
    returns (r: InvoiceSummary)
    requires ValidDate(today)
    ensures r == SummaryOf(Folds.Filter(invoices, SummaryQuery(u, period, today)))
  {
    var sel := Folds.Filter(invoices, SummaryQuery(u, period, today));
    r := InvoiceSummary(|sel|, 0.0, 0.0, 0.0, 0.0, 0, 0, 0, 0);
    var i := 0;
    while i < |sel|
      invariant 0 <= i <= |sel|
      invariant r == SummaryOf(sel[..i]).(totalInvoices := |sel|)
    {
      var inv := sel[i];
      SummarySnoc(sel[..i], inv);
      assert sel[..i + 1] == sel[..i] + [inv];
      r := r.(totalAmount := r.totalAmount + inv.totalAmount);
      if IsPaid(inv) {
        r := r.(paidAmount := r.paidAmount + inv.totalAmount, paidCount := r.paidCount + 1);
      } else if HasOverdueStatus(inv) {
        r := r.(overdueAmount := r.overdueAmount + inv.totalAmount, overdueCount := r.overdueCount + 1);
      } else {
        r := r.(pendingAmount := r.pendingAmount + inv.totalAmount);
      }
      if IsDraft(inv) {
        r := r.(draftCount := r.draftCount + 1);
      } else if IsSent(inv) {
        r := r.(sentCount := r.sentCount + 1);
      }
      i := i + 1;
    }
    assert sel[..|sel|] == sel;
  }

  /**
   * Every selected amount is counted once among paid, overdue and pending,
   * and the per-status counts never exceed the total.
   */
  lemma SummaryPartition(sel: seq<Invoice>)
    ensures var m := SummaryOf(sel);
      m.paidAmount + m.overdueAmount + m.pendingAmount == m.totalAmount
      && m.paidCount + m.overdueCount <= m.totalInvoices
      && m.draftCount + m.sentCount <= m.totalInvoices
  {
    Folds.FilterComplement(sel, IsPaid, NotPaid, Amount);
    Folds.FilterSplit(sel, NotPaid, OverdueUnpaid, PendingUnpaid, Amount);
    Folds.FilterOfFilter(sel, NotPaid, HasOverdueStatus, OverdueUnpaid);
    Folds.FilterDisjointCount(sel, IsPaid, OverdueUnpaid);
    Folds.FilterDisjointCount(sel, IsDraft, IsSent);
  }

  // ---------------------------------------------------------------------
  // Customer enrichment

  /** The position that `{c["id"]: c for c in customers}` keeps for `id`: the last customer with it. */
  function LastIndex(customers: seq<Customer>, id: string): (r: Option<nat>)
    ensures r.Some? ==>
      r.value < |customers| && customers[r.value].id == id
      && forall j :: r.value < j < |customers| ==> customers[j].id != id
    ensures r.None? <==> forall i :: 0 <= i < |customers| ==> customers[i].id != id
  {
    if customers == [] then None
    else if customers[|customers| - 1].id == id then Some(|customers| - 1)
    else LastIndex(customers[..|customers| - 1], id)
  }

  /** `customer_lookup[id]`, or `None` when the id is not a key. */
  function LastCustomer(customers: seq<Customer>, id: string): (r: Option<Customer>)
    ensures r.Some? ==> r.value in customers && r.value.id == id
    ensures r.None? <==> forall i :: 0 <= i < |customers| ==> customers[i].id != id
    ensures forall i :: 0 <= i < |customers| && customers[i].id == id && (forall j :: i < j < |customers| ==> customers[j].id != id) ==>
      r == Some(customers[i])
  {
    match LastIndex(customers, id)
    case None => None
    case Some(i) => Some(customers[i])
  }

  /**
   * One invoice of `populate_customer_info`: when it names a customer that
   * is found, the four customer fields are copied, a missing one as "".
   */
  function Enriched(inv: Invoice, customers: seq<Customer>): (r: Invoice)
    ensures r.(customerName := inv.customerName, customerEmail := inv.customerEmail,
               customerPhone := inv.customerPhone, customerAddress := inv.customerAddress) == inv
  {
    if inv.customerId == "" then inv
    else
      match LastCustomer(customers, inv.customerId)
      case None => inv
      case Some(c) =>
        inv.(customerName := Some(c.name.GetOr("")), customerEmail := Some(c.email.GetOr("")),
             customerPhone := Some(c.phone.GetOr("")), customerAddress := Some(c.address.GetOr("")))
  }

  /**
   * An enriched invoice carries the name of the customer it names, and
   * enriching twice is enriching once.
   */
  lemma EnrichedLaws(inv: Invoice, customers: seq<Customer>)
    ensures Enriched(Enriched(inv, customers), customers) == Enriched(inv, customers)
    ensures inv.customerId != "" && LastCustomer(customers, inv.customerId).Some? ==>
      var c := LastCustomer(customers, inv.customerId).value;
      Enriched(inv, customers).customerName == Some(c.name.GetOr(""))
      && Enriched(inv, customers).customerEmail == Some(c.email.GetOr(""))
      && Enriched(inv, customers).customerPhone == Some(c.phone.GetOr(""))
      && Enriched(inv, customers).customerAddress == Some(c.address.GetOr(""))
    ensures LastCustomer(customers, inv.customerId).None? ==> Enriched(inv, customers) == inv
  {
  }

  /**
   * `populate_customer_info`: the listing is updated in place; the lookup
   * is over the customers named by some invoice, which is all a lookup of
   * a named id can see.
   */
  method PopulateCustomerInfo(invoices: array<Invoice>, customers: seq<Customer>)
    modifies invoices
    ensures forall i :: 0 <= i < invoices.Length ==> invoices[i] == Enriched(old(invoices[i]), customers)
  {
    var i := 0;
    while i < invoices.Length
      invariant 0 <= i <= invoices.Length
      invariant forall j :: 0 <= j < i ==> invoices[j] == Enriched(old(invoices[j]), customers)
      invariant forall j :: i <= j < invoices.Length ==> invoices[j] == old(invoices[j])
    {
      invoices[i] := Enriched(invoices[i], customers);
      i := i + 1;
    }
  }

  // ---------------------------------------------------------------------
  // Period statistics

  datatype InvoiceStats = InvoiceStats(
    period: string,
    totalInvoices: int,
    totalRevenue: real,
    averageInvoiceValue: real,
    paymentRate: real,
    topCustomers: seq<(string, real)>,
    monthlyTrends: seq<real>)

  /**
   * `get_invoice_stats`: over the period's window, the count, the paid
   * revenue, the average amount, the share paid and the five customers
   * with the largest invoiced totals.
   */
  method GetInvoiceStats(invoices: seq<Invoice>, u: string, period: string, today: Date)
    returns (r: InvoiceStats)
    requires ValidDate(today)
    ensures var (s, e) := PeriodWindow(period, today);
      var window := Folds.Filter(invoices, InWindow(u, s, e));
      var paid := Folds.Filter(window, IsPaid);
      (window == [] ==> r == InvoiceStats(period, 0, 0.0, 0.0, 0.0, [], []))
      && (window != [] ==>
        r.period == period
        && r.totalInvoices == |window|
        && r.totalRevenue == Folds.Sum(paid, Amount)
        && r.averageInvoiceValue == Ratios.Average(Folds.Sum(window, Amount), |window|)
        && r.paymentRate == Ratios.Percent(|paid| as real, |window| as real)
        && r.topCustomers == Folds.TopN(Folds.GroupSum(CustomerAmounts(window)), 5)
        && r.monthlyTrends == [])
    ensures 0.0 <= r.paymentRate <= 100.0
    ensures |r.topCustomers| <= 5 && Folds.SortedDesc(r.topCustomers)
    ensures forall k :: 0 <= k < |r.topCustomers| ==> r.topCustomers[k].0 != ""
  {
    var (s, e) := PeriodWindow(period, today);
    var window := Folds.Filter(invoices, InWindow(u, s, e));
    if window == [] {
      return InvoiceStats(period, 0, 0.0, 0.0, 0.0, [], []);
    }
    var paid := Folds.Filter(window, IsPaid);
    Folds.FilterNarrower(window, IsPaid, (x: Invoice) => true);
    Folds.FilterNone(window, (x: Invoice) => false);
    Folds.FilterComplement(window, IsPaid, NotPaid, Amount);
    var totals := Folds.AccumulateTotals(CustomerAmounts(window));
    var top := Folds.TopN(totals, 5);
    TopCustomersNamed(CustomerAmounts(window), 5);
    Folds.TopNLaws(totals, 5);
    r := InvoiceStats(period, |window|, Folds.Sum(paid, Amount),
      Ratios.Average(Folds.Sum(window, Amount), |window|),
      Ratios.Percent(|paid| as real, |window| as real), top, []);
  }

  /** The ranking keys are customer ids, never the empty id. */
  lemma TopCustomersNamed(pairs: seq<(string, real)>, n: nat)
    requires forall i :: 0 <= i < |pairs| ==> pairs[i].0 != ""
    ensures forall k :: 0 <= k < |Folds.TopN(Folds.GroupSum(pairs), n)| ==> Folds.TopN(Folds.GroupSum(pairs), n)[k].0 != ""
  {
    var g := Folds.GroupSum(pairs);
    Folds.GroupSumLaws(pairs);
    Folds.TopNLaws(g, n);
    var t := Folds.TopN(g, n);
    forall k | 0 <= k < |t| ensures t[k].0 != "" {
      assert t[k] in g;
      var j :| 0 <= j < |g| && g[j] == t[k];
      assert t[k].0 in Folds.KeySet(g);
      assert t[k].0 in Folds.KeySet(pairs);
    }
  }
}
