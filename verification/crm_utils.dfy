/**
 * The CRM aggregates of `crm/utils.py`: the statistics of one customer,
 * the per-user customer summary, the statistics written into a customer
 * listing in place, and the twelve periods of the growth series. The
 * customer and invoice collections are sequences; `today` is a parameter.
 */
module CrmUtils {
  import opened Wrappers
  import opened Calendar
  import opened Records
  import Folds
  import Ratios

  // ---------------------------------------------------------------------
  // Statistics of one customer

  datatype CustomerStats = CustomerStats(
    totalInvoices: int,
    totalRevenue: real,
    outstandingAmount: real,
    paidAmount: real,
    lastInvoiceDate: Option<Day>,
    averageInvoiceValue: real)

  const NoCustomerStats := CustomerStats(0, 0.0, 0.0, 0.0, None, 0.0)

  /** `max(invoices, key=created_at)["created_at"]`: the latest creation day. */
  function LatestCreated(invoices: seq<Invoice>): (r: Day)
    requires invoices != []
    ensures forall i :: 0 <= i < |invoices| ==> invoices[i].createdAt <= r
    ensures exists i :: 0 <= i < |invoices| && invoices[i].createdAt == r
  {
    if |invoices| == 1 then invoices[0].createdAt
    else
      var rest := LatestCreated(invoices[1..]);
      assert exists i :: 1 <= i < |invoices| && invoices[i].createdAt == rest by {
        var j :| 0 <= j < |invoices[1..]| && invoices[1..][j].createdAt == rest;
        assert invoices[j + 1].createdAt == rest;
      }
      if invoices[0].createdAt >= rest then invoices[0].createdAt else rest
  }

  /**
   * `calculate_customer_stats`: over the customer's invoices, the total of
   * all amounts, the paid part, the unpaid rest, the latest creation day
   * and the average; zeros and no date when there are none.
   */
  function CalculateCustomerStats(invoices: seq<Invoice>, customerId: string, userId: string): (r: CustomerStats)
    ensures var sel := Folds.Filter(invoices, InvoicesOfCustomer(customerId, userId));
      r.totalInvoices == |sel|
      && (sel == [] ==> r == NoCustomerStats)
      && (sel != [] ==>
        r.totalRevenue == Folds.Sum(sel, Amount)
        && r.paidAmount == Folds.Sum(Folds.Filter(sel, IsPaid), Amount)
        && r.outstandingAmount == Folds.Sum(Folds.Filter(sel, NotPaid), Amount)
        && r.lastInvoiceDate == Some(LatestCreated(sel))
        && r.averageInvoiceValue == Ratios.Average(r.totalRevenue, |sel|))
  {
    var sel := Folds.Filter(invoices, InvoicesOfCustomer(customerId, userId));
    if sel == [] then NoCustomerStats
    else
      var total := Folds.Sum(sel, Amount);
      var paid := Folds.Sum(Folds.Filter(sel, IsPaid), Amount);
      Folds.FilterComplement(sel, IsPaid, NotPaid, Amount);
      CustomerStats(|sel|, total, total - paid, paid, Some(LatestCreated(sel)), Ratios.Average(total, |sel|))
  }

  /** With non-negative amounts, nothing is outstanding beyond the total and the paid part never exceeds it. */
  lemma CustomerStatsBounds(invoices: seq<Invoice>, customerId: string, userId: string)
    requires forall inv :: inv in invoices ==> inv.totalAmount >= 0.0
    ensures var r := CalculateCustomerStats(invoices, customerId, userId);
      0.0 <= r.paidAmount <= r.totalRevenue && 0.0 <= r.outstandingAmount <= r.totalRevenue
  {
    var sel := Folds.Filter(invoices, InvoicesOfCustomer(customerId, userId));
    Folds.FilterMembers(invoices, InvoicesOfCustomer(customerId, userId));
    if sel != [] {
      var paid := Folds.Filter(sel, IsPaid);
      var unpaid := Folds.Filter(sel, NotPaid);
      Folds.FilterMembers(sel, IsPaid);
      Folds.FilterMembers(sel, NotPaid);
      NonNegativeAmounts(paid);
      NonNegativeAmounts(unpaid);
      Folds.FilterComplement(sel, IsPaid, NotPaid, Amount);
    }
  }

  lemma NonNegativeAmounts(s: seq<Invoice>)
    requires forall i :: 0 <= i < |s| ==> s[i].totalAmount >= 0.0
    ensures Folds.Sum(s, Amount) >= 0.0
  {
    Folds.SumNonNegative(s, Amount);
  }

  // ---------------------------------------------------------------------
  // Customer summary

  datatype CustomerSummary = CustomerSummary(
    totalCustomers: int,
    activeCustomers: int,
    inactiveCustomers: int,
    potentialCustomers: int,
    totalRevenue: real,
    averageRevenuePerCustomer: real,
    topCustomers: seq<TopCustomer>,
    customerGrowth: seq<int>)

  /** `customer.get("status", "active") == "active"`: a missing status counts as active. */
  predicate CountsAsActive(c: Customer) {
    c.status.GetOr(Active) == Active
  }

  predicate IsInactive(c: Customer) {
    c.status == Some(Inactive)
  }

  predicate IsPotential(c: Customer) {
    c.status == Some(Potential)
  }

  /** The customers counted in some status bucket: every one but the blocked. */
  predicate Counted(c: Customer) {
    c.status != Some(Blocked)
  }

  predicate InactiveOrPotential(c: Customer) {
    IsInactive(c) || IsPotential(c)
  }

  function NoWeight(c: Customer): real {
    0.0
  }

  /** The three buckets are disjoint and leave out the blocked customers. */
  lemma StatusBuckets(all: seq<Customer>)
    ensures |Folds.Filter(all, CountsAsActive)| + |Folds.Filter(all, IsInactive)| + |Folds.Filter(all, IsPotential)|
      == |Folds.Filter(all, Counted)|
    ensures |Folds.Filter(all, Counted)| == |all| - |Folds.Filter(all, (c: Customer) => c.status == Some(Blocked))|
  {
    Folds.FilterSplit(all, Counted, CountsAsActive, InactiveOrPotential, NoWeight);
    Folds.FilterSplit(all, InactiveOrPotential, IsInactive, IsPotential, NoWeight);
    Folds.FilterComplement(all, (c: Customer) => c.status == Some(Blocked), Counted, NoWeight);
  }

  /** The ranking of paid revenue by customer, largest first, at most five. */
  function RevenueRanking(paid: seq<Invoice>): seq<(string, real)> {
    Folds.TopN(Folds.GroupSum(CustomerAmounts(paid)), 5)
  }

  /**
   * `get_customer_summary`: the status counters, then, only when the user
   * has paid invoices, the paid revenue, its average over all customers and
   * the five best-paying customers that are found among them.
   */
  method GetCustomerSummary(customers: seq<Customer>, invoices: seq<Invoice>, u: string) returns (r: CustomerSummary)
    ensures var all := Folds.Filter(customers, CustomersOf(u));
      var paid := Folds.Filter(invoices, PaidOf(u));
      r.totalCustomers == |all|
      && r.activeCustomers == |Folds.Filter(all, CountsAsActive)|
      && r.inactiveCustomers == |Folds.Filter(all, IsInactive)|
      && r.potentialCustomers == |Folds.Filter(all, IsPotential)|
      && (paid == [] ==> r.totalRevenue == 0.0 && r.averageRevenuePerCustomer == 0.0 && r.topCustomers == [])
      && (paid != [] ==>
        r.totalRevenue == Folds.Sum(paid, Amount)
        && r.averageRevenuePerCustomer == Ratios.Average(r.totalRevenue, |all|)
        && r.topCustomers == JoinTopCustomers(RevenueRanking(paid), all))
      && r.customerGrowth == []
    ensures r.activeCustomers + r.inactiveCustomers + r.potentialCustomers <= r.totalCustomers
    ensures |r.topCustomers| <= 5
    ensures forall i, j :: 0 <= i < j < |r.topCustomers| ==> r.topCustomers[i].value >= r.topCustomers[j].value
    ensures forall i :: 0 <= i < |r.topCustomers| ==>
      FindCustomer(Folds.Filter(customers, CustomersOf(u)), r.topCustomers[i].id).Some?
  {
    var all := Folds.Filter(customers, CustomersOf(u));
    var active, inactive, potential := CountStatuses(all);
    r := CustomerSummary(|all|, active, inactive, potential, 0.0, 0.0, [], []);
    var paid := Folds.Filter(invoices, PaidOf(u));
    if paid != [] {
      var total := Folds.Sum(paid, Amount);
      var top := TopPayingCustomers(paid, all);
      r := r.(totalRevenue := total, averageRevenuePerCustomer := Ratios.Average(total, |all|), topCustomers := top);
    }
  }

  /** The status counters of `get_customer_summary`; blocked customers fall in no bucket. */
  method CountStatuses(all: seq<Customer>) returns (active: int, inactive: int, potential: int)
    ensures active == |Folds.Filter(all, CountsAsActive)|
    ensures inactive == |Folds.Filter(all, IsInactive)|
    ensures potential == |Folds.Filter(all, IsPotential)|
    ensures active + inactive + potential <= |all|
  {
    active, inactive, potential := 0, 0, 0;
    var i := 0;
    while i < |all|
      invariant 0 <= i <= |all|
      invariant active == |Folds.Filter(all[..i], CountsAsActive)|
      invariant inactive == |Folds.Filter(all[..i], IsInactive)|
      invariant potential == |Folds.Filter(all[..i], IsPotential)|
    {
      var c := all[i];
      assert all[..i + 1] == all[..i] + [c];
      Folds.FilterSnoc(all[..i], c, CountsAsActive, NoWeight);
      Folds.FilterSnoc(all[..i], c, IsInactive, NoWeight);
      Folds.FilterSnoc(all[..i], c, IsPotential, NoWeight);
      var status := c.status.GetOr(Active);
      if status == Active {
        active := active + 1;
      } else if status == Inactive {
        inactive := inactive + 1;
      } else if status == Potential {
        potential := potential + 1;
      }
      i := i + 1;
    }
    assert all[..|all|] == all;
    StatusBuckets(all);
  }

  /** The revenue dictionary, its top five, and the named entries of those found among the customers. */
  method TopPayingCustomers(paid: seq<Invoice>, all: seq<Customer>) returns (top: seq<TopCustomer>)
    ensures top == JoinTopCustomers(RevenueRanking(paid), all)
    ensures |top| <= 5
    ensures forall i, j :: 0 <= i < j < |top| ==> top[i].value >= top[j].value
    ensures forall i :: 0 <= i < |top| ==> FindCustomer(all, top[i].id).Some?
  {
    var revenue := Folds.AccumulateTotals(CustomerAmounts(paid));
    var ranking := Folds.TopN(revenue, 5);
    Folds.TopNLaws(revenue, 5);
    Folds.FilterSortedDesc(ranking, IsKnown(all));
    top := JoinTopCustomers(ranking, all);
  }

  // ---------------------------------------------------------------------
  // Statistics written into a listing

  /** `customer_invoices[id]`: the invoices naming this customer id, which must be non-empty. */
  function OfCustomer(id: string): Invoice -> bool {
    (inv: Invoice) => id != "" && inv.customerId == id
  }

  /** The grouped lists, with a missing key read as the empty list. */
  function GroupOf(groups: map<string, seq<Invoice>>, id: string): seq<Invoice> {
    if id in groups then groups[id] else []
  }

  /**
   * One customer of `populate_customer_stats`: the count, the total and the
   * unpaid part of the given invoice list, all zero when the list is empty.
   */
  function WithStats(c: Customer, invs: seq<Invoice>): (r: Customer)
    ensures r.(totalInvoices := c.totalInvoices, totalRevenue := c.totalRevenue,
               outstandingAmount := c.outstandingAmount) == c
    ensures r.totalInvoices == |invs| && r.totalRevenue == Folds.Sum(invs, Amount)
    ensures r.outstandingAmount == Folds.Sum(Folds.Filter(invs, NotPaid), Amount)
  {
    if invs != [] then
      var total := Folds.Sum(invs, Amount);
      var paid := Folds.Sum(Folds.Filter(invs, IsPaid), Amount);
      Folds.FilterComplement(invs, IsPaid, NotPaid, Amount);
      c.(totalInvoices := |invs|, totalRevenue := total, outstandingAmount := total - paid)
    else
      c.(totalInvoices := 0, totalRevenue := 0.0, outstandingAmount := 0.0)
  }

  /** Adding one invoice to the grouping keeps every list equal to the selection of the customer's invoices. */
  lemma GroupStep(groups: map<string, seq<Invoice>>, prefix: seq<Invoice>, inv: Invoice)
    requires forall id :: GroupOf(groups, id) == Folds.Filter(prefix, OfCustomer(id))
    ensures var next := if HasCustomer(inv) then groups[inv.customerId := GroupOf(groups, inv.customerId) + [inv]] else groups;
      forall id :: GroupOf(next, id) == Folds.Filter(prefix + [inv], OfCustomer(id))
  {
    var next := if HasCustomer(inv) then groups[inv.customerId := GroupOf(groups, inv.customerId) + [inv]] else groups;
    forall id ensures GroupOf(next, id) == Folds.Filter(prefix + [inv], OfCustomer(id)) {
      Folds.FilterSnoc(prefix, inv, OfCustomer(id), Amount);
    }
  }

  /** The `customer_invoices` dictionary: each named customer id with its invoices, in order. */
  method GroupByCustomer(invoices: seq<Invoice>) returns (groups: map<string, seq<Invoice>>)
    ensures forall id :: GroupOf(groups, id) == Folds.Filter(invoices, OfCustomer(id))
  {
    groups := map[];
    var k := 0;
    while k < |invoices|
      invariant 0 <= k <= |invoices|
      invariant forall id :: GroupOf(groups, id) == Folds.Filter(invoices[..k], OfCustomer(id))
    {
      GroupStep(groups, invoices[..k], invoices[k]);
      assert invoices[..k + 1] == invoices[..k] + [invoices[k]];
      if HasCustomer(invoices[k]) {
        groups := groups[invoices[k].customerId := GroupOf(groups, invoices[k].customerId) + [invoices[k]]];
      }
      k := k + 1;
    }
    assert invoices[..|invoices|] == invoices;
  }

  /**
   * `populate_customer_stats`: the user's invoices are grouped by customer
   * id, then every customer of the listing, in place and in order, gets the
   * statistics of its group.
   */
  method PopulateCustomerStats(customers: array<Customer>, invoices: seq<Invoice>, u: string)
    modifies customers
    ensures forall i :: 0 <= i < customers.Length ==>
      customers[i] == StatsFrom(old(customers[i]), Folds.Filter(invoices, InvoicesOf(u)))
  {
    var mine := Folds.Filter(invoices, InvoicesOf(u));
    var groups := GroupByCustomer(mine);
    var i := 0;
    while i < customers.Length
      invariant 0 <= i <= customers.Length
      invariant forall j :: 0 <= j < i ==> customers[j] == StatsFrom(old(customers[j]), mine)
      invariant forall j :: i <= j < customers.Length ==> customers[j] == old(customers[j])
    {
      var c := customers[i];
      assert GroupOf(groups, c.id) == Folds.Filter(mine, OfCustomer(c.id));
      customers[i] := WithStats(c, GroupOf(groups, c.id));
      i := i + 1;
    }
  }

  /** A customer with the statistics of its own invoices among `mine`. */
  function StatsFrom(c: Customer, mine: seq<Invoice>): Customer {
    WithStats(c, Folds.Filter(mine, OfCustomer(c.id)))
  }

  /**
   * The listing's statistics agree with `calculate_customer_stats` for the
   * same customer: same count, same total, same outstanding amount.
   */
  lemma PopulatedStatsAgree(c: Customer, invoices: seq<Invoice>, u: string)
    requires c.id != ""
    ensures var populated := StatsFrom(c, Folds.Filter(invoices, InvoicesOf(u)));
      var stats := CalculateCustomerStats(invoices, c.id, u);
      populated.totalInvoices == stats.totalInvoices
      && populated.totalRevenue == stats.totalRevenue
      && populated.outstandingAmount == stats.outstandingAmount
  {
    Folds.FilterOfFilter(invoices, InvoicesOf(u), OfCustomer(c.id), InvoicesOfCustomer(c.id, u));
  }

  // ---------------------------------------------------------------------
  // Growth periods

  /** One period of the growth series: its name (the day it starts) and its first and last day. */
  datatype GrowthPeriod = GrowthPeriod(start: Date, end: Date)

  datatype GrowthEntry = GrowthEntry(period: GrowthPeriod, customersAdded: int)

  /**
   * Period `i` of `get_customer_growth_data`: for "month", the first of the
   * current month minus 30·i days, to the last day of that day's month; for
   * any other name, the Monday `i` weeks back, to the Sunday after it.
   */
  function PeriodAt(period: string, today: Date, i: nat): (r: GrowthPeriod)
    requires ValidDate(today)
    ensures ValidDate(r.start) && ValidDate(r.end)
  {
    if period == "month" then
      var start := MinusDays(Date(today.year, today.month, 1), 30 * i);
      MonthEndByTrickIsLastDay(start);
      GrowthPeriod(start, MonthEndByTrick(start))
    else
      var start := MinusDays(today, 7 * i + Weekday(ToOrdinal(today)));
      GrowthPeriod(start, PlusDays(start, 6))
  }

  /** `count_documents` over the user's customers created within the period. */
  function CustomersAdded(customers: seq<Customer>, u: string, p: GrowthPeriod): int
    requires ValidDate(p.start) && ValidDate(p.end)
  {
    |Folds.Filter(customers, CustomersCreatedIn(u, ToOrdinal(p.start), ToOrdinal(p.end)))|
  }

  /** `get_customer_growth_data`: twelve periods, most recent first, each with its count of new customers. */
  method GetCustomerGrowthData(customers: seq<Customer>, u: string, period: string, today: Date)
    returns (data: seq<GrowthEntry>)
    requires ValidDate(today)
    ensures |data| == 12
    ensures forall i :: 0 <= i < 12 ==>
      data[i].period == PeriodAt(period, today, i)
      && data[i].customersAdded == CustomersAdded(customers, u, PeriodAt(period, today, i))
  {
    var periods: seq<GrowthPeriod> := [];
    for i := 0 to 12
      invariant |periods| == i
      invariant forall j :: 0 <= j < i ==> periods[j] == PeriodAt(period, today, j)
    {
      periods := periods + [PeriodAt(period, today, i)];
    }
    data := [];
    for i := 0 to 12
      invariant |data| == i
      invariant forall j :: 0 <= j < i ==>
        data[j] == GrowthEntry(periods[j], CustomersAdded(customers, u, periods[j]))
    {
      data := data + [GrowthEntry(periods[i], CustomersAdded(customers, u, periods[i]))];
    }
  }

  /** Weekly periods start on the Monday `i` weeks before this week's and last seven days. */
  lemma WeeklyPeriods(period: string, today: Date, i: nat)
    requires ValidDate(today) && period != "month"
    ensures var p := PeriodAt(period, today, i);
      var monday := ToOrdinal(today) - Weekday(ToOrdinal(today));
      Weekday(ToOrdinal(p.start)) == 0
      && ToOrdinal(p.start) == monday - 7 * i
      && ToOrdinal(p.end) == ToOrdinal(p.start) + 6
  {
    var n := ToOrdinal(today);
    var p := PeriodAt(period, today, i);
    MinusDaysOrdinal(today, 7 * i + Weekday(n));
    PlusDaysOrdinal(p.start, 6);
    MondayWeeksBack(n, i);
  }

  lemma MondayWeeksBack(n: Day, i: nat)
    ensures Weekday(n - Weekday(n) - 7 * i) == 0
  {
    var a := n + 6;
    assert a == 7 * (a / 7) + a % 7;
    assert n - Weekday(n) - 7 * i + 6 == 7 * (a / 7 - i);
  }

  /** A monthly period ends on the last day of the month its start falls in. */
  lemma MonthlyPeriods(today: Date, i: nat)
    requires ValidDate(today)
    ensures var p := PeriodAt("month", today, i);
      p.end == Date(p.start.year, p.start.month, DaysInMonth(p.start.year, p.start.month))
      && ToOrdinal(p.start) == ToOrdinal(Date(today.year, today.month, 1)) - 30 * i
  {
    var p := PeriodAt("month", today, i);
    MonthEndByTrickIsLastDay(p.start);
    MinusDaysOrdinal(Date(today.year, today.month, 1), 30 * i);
  }

  /**
   * Monthly starts drift off the first of the month: from 15 March 2024
   * the second period is the single day 31 January 2024, and February is
   * never counted.
   */
  lemma MonthlyStartDrifts()
    ensures PeriodAt("month", Date(2024, 3, 15), 1) == GrowthPeriod(Date(2024, 1, 31), Date(2024, 1, 31))
  {
    var march := Date(2024, 3, 1);
    MinusDaysAdd(march, 1, 29);
    MinusDaysAdd(PrevDay(march), 28, 1);
    MinusDaysWithinMonth(Date(2024, 2, 29), 28);
    MonthEndByTrickIsLastDay(Date(2024, 1, 31));
  }
}
