/**
 * The reporting engine of `reports/utils.py`: financial, sales and customer
 * metrics of one user over an inclusive window of days, the growth rule, the
 * daily sales trend, the weekday ranking, the business overview, the chart
 * builder and the KPI builder. The invoice and customer collections are
 * parameters; every query of the source is a `Filter` of them.
 */
module ReportUtils {
  import opened Wrappers
  import opened Calendar
  import opened Records
  import opened ReportModels
  import Folds
  import Ratios

  /** The paid revenue of a user over the days `start..end`. */
  function PaidTotal(invoices: seq<Invoice>, user: string, start: Day, end: Day): real {
    Folds.Sum(Folds.Filter(invoices, PaidInWindow(user, start, end)), Amount)
  }

  // ---------------------------------------------------------------------
  // Growth rate

  /**
   * The comparison window: it ends the day before `start` and spans the same
   * number of days as `start..end`.
   */
  function PreviousWindow(start: Day, end: Day): (r: (Day, Day))
    ensures r.1 + 1 == start
    ensures r.1 - r.0 == end - start
  {
    var periodDays := end - start;
    var prevEnd := start - 1;
    (prevEnd - periodDays, prevEnd)
  }

  /** `_calculate_growth_rate(user, start, end, "revenue")`. */
  function GrowthRate(invoices: seq<Invoice>, user: string, start: Day, end: Day): (r: real)
    ensures var (ps, pe) := PreviousWindow(start, end);
      var current := PaidTotal(invoices, user, start, end);
      var previous := PaidTotal(invoices, user, ps, pe);
      (previous == 0.0 ==> r == (if current > 0.0 then 100.0 else 0.0))
      && (previous != 0.0 ==> previous + previous * r / 100.0 == current)
  {
    var (ps, pe) := PreviousWindow(start, end);
    Ratios.GrowthPercent(PaidTotal(invoices, user, start, end), PaidTotal(invoices, user, ps, pe))
  }

  // ---------------------------------------------------------------------
  // Financial metrics

  /** `get_financial_metrics`. */
  function FinancialMetricsOf(invoices: seq<Invoice>, user: string, start: Day, end: Day): FinancialMetrics {
    var window := Folds.Filter(invoices, InWindow(user, start, end));
    if window == [] then DefaultFinancialMetrics
    else
      var paid := Folds.Filter(window, IsPaid);
      var revenue := Folds.Sum(paid, Amount);
      FinancialMetrics(
        revenue,
        |window|,
        |paid|,
        |Folds.Filter(window, IsPending)|,
        |Folds.Filter(window, HasOverdueStatus)|,
        Ratios.Average(revenue, |paid|),
        Folds.Sum(Folds.Filter(window, NotPaid), Amount),
        Ratios.Percent(|paid| as real, |window| as real),
        GrowthRate(invoices, user, start, end),
        85.0)
  }

  /**
   * An empty window gives the all-zero record whatever the previous window
   * held. Otherwise revenue and outstanding split the window's total, paid
   * and pending never exceed the invoice count, the average is revenue per
   * paid invoice, the collection rate is a percentage, and the margin is 85.
   */
  lemma FinancialMetricsLaws(invoices: seq<Invoice>, user: string, start: Day, end: Day)
    ensures var m := FinancialMetricsOf(invoices, user, start, end);
      var window := Folds.Filter(invoices, InWindow(user, start, end));
      (window == [] ==> m == DefaultFinancialMetrics)
      && (window != [] ==>
        m.totalInvoices == |window|
        && m.totalRevenue + m.totalOutstanding == Folds.Sum(window, Amount)
        && m.paidInvoices + m.pendingInvoices <= m.totalInvoices
        && (m.paidInvoices == 0 ==> m.averageInvoiceValue == 0.0 && m.totalRevenue == 0.0)
        && 0.0 <= m.collectionRate <= 100.0
        && m.totalRevenue == PaidTotal(invoices, user, start, end)
        && m.growthRate == GrowthRate(invoices, user, start, end)
        && m.profitMargin == 85.0)
  {
    var window := Folds.Filter(invoices, InWindow(user, start, end));
    if window != [] {
      FinancialCounts(window);
      Folds.FilterOfFilter(invoices, InWindow(user, start, end), IsPaid, PaidInWindow(user, start, end));
      var m := FinancialMetricsOf(invoices, user, start, end);
      FinancialRatios(m);
    }
  }

  /** A non-empty window's average is revenue per paid invoice and its collection rate is paid per hundred invoices. */
  lemma FinancialMetricsRatios(invoices: seq<Invoice>, user: string, start: Day, end: Day)
    requires Folds.Filter(invoices, InWindow(user, start, end)) != []
    ensures var m := FinancialMetricsOf(invoices, user, start, end);
      (m.paidInvoices > 0 ==> m.averageInvoiceValue * m.paidInvoices as real == m.totalRevenue)
      && m.collectionRate * m.totalInvoices as real == m.paidInvoices as real * 100.0
  {
    FinancialCounts(Folds.Filter(invoices, InWindow(user, start, end)));
    FinancialRatios(FinancialMetricsOf(invoices, user, start, end));
  }

  /** The partition of a window by payment status. */
  lemma FinancialCounts(window: seq<Invoice>)
    ensures var paid := Folds.Filter(window, IsPaid);
      Folds.Sum(paid, Amount) + Folds.Sum(Folds.Filter(window, NotPaid), Amount) == Folds.Sum(window, Amount)
      && |paid| + |Folds.Filter(window, IsPending)| <= |window|
      && (paid == [] ==> Folds.Sum(paid, Amount) == 0.0)
  {
    Folds.FilterComplement(window, IsPaid, NotPaid, Amount);
    Folds.FilterDisjointCount(window, IsPaid, IsPending);
  }

  /** The average and the collection rate of a window with `total` invoices, `paid` of them paid. */
  lemma FinancialRatios(m: FinancialMetrics)
    requires 0 <= m.paidInvoices <= m.totalInvoices && m.totalInvoices > 0
    requires m.averageInvoiceValue == Ratios.Average(m.totalRevenue, m.paidInvoices)
    requires m.collectionRate == Ratios.Percent(m.paidInvoices as real, m.totalInvoices as real)
    ensures m.paidInvoices > 0 ==> m.averageInvoiceValue * m.paidInvoices as real == m.totalRevenue
    ensures m.paidInvoices == 0 ==> m.averageInvoiceValue == 0.0
    ensures 0.0 <= m.collectionRate <= 100.0
    ensures m.collectionRate * m.totalInvoices as real == m.paidInvoices as real * 100.0
  {
  }

  // ---------------------------------------------------------------------
  // Sales trend

  /** One day of paid sales. */
  function DaySales(invoices: seq<Invoice>, user: string, d: Day): TrendEntry {
    var sales := Folds.Filter(invoices, PaidInWindow(user, d, d));
    TrendEntry(d, Folds.Sum(sales, Amount), |sales|)
  }

  /** One entry per day of `start..end`, in order, zero when nothing was sold. */
  function SalesTrend(invoices: seq<Invoice>, user: string, start: Day, end: Day): (r: seq<TrendEntry>)
    ensures |r| == if start <= end then end - start + 1 else 0
    ensures forall i :: 0 <= i < |r| ==> r[i] == DaySales(invoices, user, start + i)
    decreases end - start
  {
    if start > end then [] else [DaySales(invoices, user, start)] + SalesTrend(invoices, user, start + 1, end)
  }

  /** `_calculate_sales_trend`: the day-by-day loop. */
  method CalculateSalesTrend(invoices: seq<Invoice>, user: string, start: Day, end: Day) returns (trend: seq<TrendEntry>)
    ensures trend == SalesTrend(invoices, user, start, end)
  {
    trend := [];
    var current := start;
    while current <= end
      invariant current - start == |trend|
      invariant start <= end ==> current <= end + 1
      invariant start > end ==> current == start
      invariant forall i :: 0 <= i < |trend| ==> trend[i] == DaySales(invoices, user, start + i)
      decreases end - current
    {
      trend := trend + [DaySales(invoices, user, current)];
      current := current + 1;
    }
  }

  function TrendSales(e: TrendEntry): real {
    e.sales
  }

  function TrendCount(e: TrendEntry): real {
    e.count as real
  }

  /** The paid window splits into its first day and the rest. */
  lemma SplitFirstDay(invoices: seq<Invoice>, user: string, start: Day, end: Day)
    requires start <= end
    ensures PaidTotal(invoices, user, start, end)
      == DaySales(invoices, user, start).sales + PaidTotal(invoices, user, start + 1, end)
    ensures |Folds.Filter(invoices, PaidInWindow(user, start, end))|
      == DaySales(invoices, user, start).count + |Folds.Filter(invoices, PaidInWindow(user, start + 1, end))|
  {
    Folds.FilterSplit(invoices, PaidInWindow(user, start, end), PaidInWindow(user, start, start),
      PaidInWindow(user, start + 1, end), Amount);
  }

  /** The trend adds up to the window's paid revenue and paid invoice count. */
  lemma {:induction false} TrendTotals(invoices: seq<Invoice>, user: string, start: Day, end: Day)
    ensures Folds.Sum(SalesTrend(invoices, user, start, end), TrendSales) == PaidTotal(invoices, user, start, end)
    ensures Folds.Sum(SalesTrend(invoices, user, start, end), TrendCount)
      == |Folds.Filter(invoices, PaidInWindow(user, start, end))| as real
    decreases end - start
  {
    var t := SalesTrend(invoices, user, start, end);
    if start > end {
      Folds.FilterNone(invoices, PaidInWindow(user, start, end));
    } else {
      TrendTotals(invoices, user, start + 1, end);
      SplitFirstDay(invoices, user, start, end);
      assert t == [DaySales(invoices, user, start)] + SalesTrend(invoices, user, start + 1, end);
      assert t[1..] == SalesTrend(invoices, user, start + 1, end);
    }
  }

  // ---------------------------------------------------------------------
  // Top selling periods

  const DayNames: seq<string> := ["Monday", "Tuesday", "Wednesday", "Thursday", "Friday", "Saturday", "Sunday"]

  /** `created_at.strftime("%A")`. */
  function DayName(d: Day): (r: string)
    ensures r in DayNames
  {
    DayNames[Weekday(d)]
  }

  /** The `(day name, amount)` pair of each sale, in order. */
  function WeekdayAmounts(sales: seq<Invoice>): (r: seq<(string, real)>)
    ensures |r| == |sales|
    ensures forall i :: 0 <= i < |r| ==> r[i] == (DayName(sales[i].createdAt), sales[i].totalAmount)
  {
    if sales == [] then []
    else [(DayName(sales[0].createdAt), sales[0].totalAmount)] + WeekdayAmounts(sales[1..])
  }

  /** `_calculate_top_selling_periods`. */
  function TopSellingPeriods(sales: seq<Invoice>): seq<(string, real)> {
    Folds.TopN(Folds.GroupSum(WeekdayAmounts(sales)), 3)
  }

  /**
   * At most three weekdays, in descending order of amount; each carries the
   * total of that weekday's sales, and no weekday left out sold more than
   * one that was kept.
   */
  lemma TopSellingPeriodsLaws(sales: seq<Invoice>)
    ensures var r := TopSellingPeriods(sales);
      var totals := Folds.GroupSum(WeekdayAmounts(sales));
      |r| <= 3
      && Folds.SortedDesc(r)
      && (forall i :: 0 <= i < |r| ==> r[i].0 in DayNames && r[i].1 == Folds.SumFor(WeekdayAmounts(sales), r[i].0))
      && (forall e, i :: e in totals && e !in r && 0 <= i < |r| ==> r[i].1 >= e.1)
      && (forall v :: Folds.Filter(r, Folds.ValueIs(v)) <= Folds.Filter(totals, Folds.ValueIs(v)))
      && (sales != [] ==> r != [])
  {
    var pairs := WeekdayAmounts(sales);
    var totals := Folds.GroupSum(pairs);
    Folds.GroupSumLaws(pairs);
    Folds.TopNLaws(totals, 3);
    forall v ensures Folds.Filter(TopSellingPeriods(sales), Folds.ValueIs(v)) <= Folds.Filter(totals, Folds.ValueIs(v)) {
      Folds.TopNStable(totals, 3, v);
    }
    var r := TopSellingPeriods(sales);
    forall i | 0 <= i < |r| ensures r[i].0 in DayNames && r[i].1 == Folds.SumFor(pairs, r[i].0) {
      assert r[i] in totals;
      var j :| 0 <= j < |totals| && totals[j] == r[i];
      assert r[i].0 in Folds.KeySet(pairs);
      var k :| 0 <= k < |pairs| && pairs[k].0 == r[i].0;
    }
    if sales != [] {
      assert pairs[0].0 in Folds.KeySet(pairs);
      assert totals != [];
    }
  }

  /** The `day_sales` loop, then the ranking. */
  method CalculateTopSellingPeriods(sales: seq<Invoice>) returns (top: seq<(string, real)>)
    ensures top == TopSellingPeriods(sales)
  {
    var daySales: seq<(string, real)> := [];
    var i := 0;
    while i < |sales|
      invariant 0 <= i <= |sales|
      invariant Folds.GroupFrom(daySales, WeekdayAmounts(sales[i..])) == Folds.GroupSum(WeekdayAmounts(sales))
    {
      assert sales[i..][1..] == sales[i + 1..];
      daySales := Folds.AddTo(daySales, DayName(sales[i].createdAt), sales[i].totalAmount);
      i := i + 1;
    }
    assert sales[i..] == [];
    top := Folds.TopN(daySales, 3);
  }

  // ---------------------------------------------------------------------
  // Sales metrics

  /** `get_sales_metrics`. */
  function SalesMetricsOf(invoices: seq<Invoice>, user: string, start: Day, end: Day): SalesMetrics {
    var sales := Folds.Filter(invoices, PaidInWindow(user, start, end));
    if sales == [] then DefaultSalesMetrics
    else
      var total := Folds.Sum(sales, Amount);
      SalesMetrics(total, |sales|, Ratios.Average(total, |sales|), TopSellingPeriods(sales),
        SalesTrend(invoices, user, start, end), 75.0, total * 0.6)
  }

  /**
   * No paid invoice in the window gives the default record, trend included.
   * Otherwise the trend covers every day of the window and adds up to the
   * total; the average is the total per sale; recurring revenue is 60%.
   */
  lemma SalesMetricsLaws(invoices: seq<Invoice>, user: string, start: Day, end: Day)
    ensures var m := SalesMetricsOf(invoices, user, start, end);
      var sales := Folds.Filter(invoices, PaidInWindow(user, start, end));
      (sales == [] ==> m == DefaultSalesMetrics)
      && (sales != [] ==>
        m.salesCount == |sales|
        && m.averageSaleValue == Ratios.Average(m.totalSales, m.salesCount)
        && m.totalSales == PaidTotal(invoices, user, start, end)
        && |m.salesTrend| == end - start + 1
        && Folds.Sum(m.salesTrend, TrendSales) == m.totalSales
        && 1 <= |m.topSellingPeriods| <= 3
        && m.recurringRevenue == m.totalSales * 0.6)
  {
    var sales := Folds.Filter(invoices, PaidInWindow(user, start, end));
    if sales != [] {
      TrendTotals(invoices, user, start, end);
      TopSellingPeriodsLaws(sales);
      if start > end {
        Folds.FilterNone(invoices, PaidInWindow(user, start, end));
      }
    }
  }

  // ---------------------------------------------------------------------
  // Customer metrics

  /** The `customer_values` dictionary: lifetime paid value per customer id. */
  function CustomerValues(invoices: seq<Invoice>, user: string): seq<(string, real)> {
    Folds.GroupSum(CustomerAmounts(Folds.Filter(invoices, PaidOf(user))))
  }

  /** The `active_customer_ids` set: customer ids named by the window's invoices. */
  function ActiveCustomerIds(invoices: seq<Invoice>, user: string, start: Day, end: Day): set<string> {
    var window := Folds.Filter(invoices, InWindow(user, start, end));
    set inv | inv in window && HasCustomer(inv) :: inv.customerId
  }

  /** `get_customer_metrics`. */
  function CustomerMetricsOf(invoices: seq<Invoice>, customers: seq<Customer>, user: string, start: Day, end: Day): CustomerMetrics {
    var all := Folds.Filter(customers, CustomersOf(user));
    var values := CustomerValues(invoices, user);
    CustomerMetrics(
      |all|,
      |ActiveCustomerIds(invoices, user, start, end)|,
      |Folds.Filter(customers, CustomersCreatedIn(user, start, end))|,
      90.0,
      Ratios.Average(Folds.Sum(values, Folds.Value), |all|),
      JoinTopCustomers(Folds.TopN(values, 5), all),
      5.0)
  }

  /**
   * Totals count every customer of the user, not only the window's; new
   * customers are among them; the top list holds at most five known
   * customers in descending lifetime value; the average spreads all paid
   * customer revenue over all customers.
   */
  lemma CustomerMetricsLaws(invoices: seq<Invoice>, customers: seq<Customer>, user: string, start: Day, end: Day)
    ensures var m := CustomerMetricsOf(invoices, customers, user, start, end);
      var all := Folds.Filter(customers, CustomersOf(user));
      var paidRevenue := Folds.Sum(CustomerAmounts(Folds.Filter(invoices, PaidOf(user))), Folds.Value);
      m.totalCustomers == |all|
      && m.newCustomers <= m.totalCustomers
      && m.activeCustomers == |ActiveCustomerIds(invoices, user, start, end)|
      && "" !in ActiveCustomerIds(invoices, user, start, end)
      && |m.topCustomers| <= 5
      && (forall i, j :: 0 <= i < j < |m.topCustomers| ==> m.topCustomers[i].value >= m.topCustomers[j].value)
      && (forall i :: 0 <= i < |m.topCustomers| ==> FindCustomer(all, m.topCustomers[i].id).Some?)
      && m.averageCustomerValue == Ratios.Average(paidRevenue, m.totalCustomers)
  {
    var all := Folds.Filter(customers, CustomersOf(user));
    var values := CustomerValues(invoices, user);
    Folds.GroupSumLaws(CustomerAmounts(Folds.Filter(invoices, PaidOf(user))));
    CustomerValuesTotal(invoices, user);
    Folds.FilterNarrower(customers, CustomersCreatedIn(user, start, end), CustomersOf(user));
    var top := Folds.TopN(values, 5);
    Folds.TopNLaws(values, 5);
    var kept := Folds.Filter(top, IsKnown(all));
    Folds.FilterSortedDesc(top, IsKnown(all));
  }

  /** Each top customer carries the user's lifetime paid revenue from that customer. */
  lemma TopCustomerValues(invoices: seq<Invoice>, customers: seq<Customer>, user: string, start: Day, end: Day)
    ensures var m := CustomerMetricsOf(invoices, customers, user, start, end);
      forall i :: 0 <= i < |m.topCustomers| ==>
        m.topCustomers[i].value == Folds.SumFor(CustomerAmounts(Folds.Filter(invoices, PaidOf(user))), m.topCustomers[i].id)
  {
    var pairs := CustomerAmounts(Folds.Filter(invoices, PaidOf(user)));
    var top := CustomerMetricsOf(invoices, customers, user, start, end).topCustomers;
    assert top == JoinTopCustomers(Folds.TopN(Folds.GroupSum(pairs), 5), Folds.Filter(customers, CustomersOf(user)));
    JoinedTotals(pairs, 5, Folds.Filter(customers, CustomersOf(user)));
  }

  /** Grouping by customer neither loses nor adds revenue. */
  lemma CustomerValuesTotal(invoices: seq<Invoice>, user: string)
    ensures Folds.Sum(CustomerValues(invoices, user), Folds.Value)
      == Folds.Sum(CustomerAmounts(Folds.Filter(invoices, PaidOf(user))), Folds.Value)
  {
    Folds.GroupSumLaws(CustomerAmounts(Folds.Filter(invoices, PaidOf(user))));
  }

  /** The two loops of `get_customer_metrics`: the value dictionary and the active-id set. */
  method GetCustomerMetrics(invoices: seq<Invoice>, customers: seq<Customer>, user: string, start: Day, end: Day)
    returns (m: CustomerMetrics)
    ensures m == CustomerMetricsOf(invoices, customers, user, start, end)
  {
    var all := Folds.Filter(customers, CustomersOf(user));
    var values := Folds.AccumulateTotals(CustomerAmounts(Folds.Filter(invoices, PaidOf(user))));
    var window := Folds.Filter(invoices, InWindow(user, start, end));
    var active: set<string> := {};
    var i := 0;
    while i < |window|
      invariant 0 <= i <= |window|
      invariant active == set inv | inv in window[..i] && HasCustomer(inv) :: inv.customerId
    {
      if HasCustomer(window[i]) {
        active := active + {window[i].customerId};
      }
      assert window[..i + 1] == window[..i] + [window[i]];
      i := i + 1;
    }
    assert window[..i] == window;
    m := CustomerMetrics(|all|, |active|, |Folds.Filter(customers, CustomersCreatedIn(user, start, end))|, 90.0,
      Ratios.Average(Folds.Sum(values, Folds.Value), |all|), JoinTopCustomers(Folds.TopN(values, 5), all), 5.0);
  }

  // ---------------------------------------------------------------------
  // Business overview

  /** Which rule of `key_insights` emits an insight: 0 revenue, 1 collection, 2 customers. */
  function InsightRule(x: OverviewInsight): nat {
    match x
    case RevenueGrew(_) => 0
    case RevenueDeclined(_) => 0
    case CollectionHealthy(_) => 1
    case CollectionLow(_) => 1
    case NewCustomersAcquired(_) => 2
  }

  /**
   * The `key_insights` of `generate_business_overview`: growth above 10 or
   * below -5, collection above 80 or below 60, then any new customers; at
   * most one insight per rule, in the order of the rules.
   */
  function InsightsOf(f: FinancialMetrics, c: CustomerMetrics): (r: seq<OverviewInsight>)
    ensures var g, p := f.growthRate, f.collectionRate;
      |r| <= 3
      && (RevenueGrew(g) in r <==> g > 10.0)
      && (RevenueDeclined(-g) in r <==> g < -5.0)
      && (CollectionHealthy(p) in r <==> p > 80.0)
      && (CollectionLow(p) in r <==> p < 60.0)
      && (NewCustomersAcquired(c.newCustomers) in r <==> c.newCustomers > 0)
      && (forall x :: x in r ==>
            x in {RevenueGrew(g), RevenueDeclined(-g), CollectionHealthy(p), CollectionLow(p), NewCustomersAcquired(c.newCustomers)})
    ensures forall i, j :: 0 <= i < j < |r| ==> InsightRule(r[i]) < InsightRule(r[j])
  {
    var g, p := f.growthRate, f.collectionRate;
    (if g > 10.0 then [RevenueGrew(g)] else if g < -5.0 then [RevenueDeclined(-g)] else [])
    + (if p > 80.0 then [CollectionHealthy(p)] else if p < 60.0 then [CollectionLow(p)] else [])
    + (if c.newCustomers > 0 then [NewCustomersAcquired(c.newCustomers)] else [])
  }

  /** The `key_insights` loop of appends yields exactly `InsightsOf`. */
  method OverviewInsights(f: FinancialMetrics, c: CustomerMetrics) returns (insights: seq<OverviewInsight>)
    ensures insights == InsightsOf(f, c)
  {
    insights := [];
    if f.growthRate > 10.0 {
      insights := insights + [RevenueGrew(f.growthRate)];
    } else if f.growthRate < -5.0 {
      insights := insights + [RevenueDeclined(-f.growthRate)];
    }
    if f.collectionRate > 80.0 {
      insights := insights + [CollectionHealthy(f.collectionRate)];
    } else if f.collectionRate < 60.0 {
      insights := insights + [CollectionLow(f.collectionRate)];
    }
    if c.newCustomers > 0 {
      insights := insights + [NewCustomersAcquired(c.newCustomers)];
    }
  }

  /** Which rule of `recommendations` emits a recommendation, in the order the rules run. */
  function RecommendationRule(x: OverviewRecommendation): nat {
    match x
    case PaymentReminders => 0
    case Upselling => 1
    case LoyaltyPrograms => 2
  }

  /**
   * The `recommendations` of `generate_business_overview`: reminders with
   * overdue invoices, upselling with a positive average, loyalty programs
   * above five customers, each at most once and in that order.
   */
  function RecommendationsOf(f: FinancialMetrics, c: CustomerMetrics): (r: seq<OverviewRecommendation>)
    ensures |r| <= 3
    ensures PaymentReminders in r <==> f.overdueInvoices > 0
    ensures Upselling in r <==> f.averageInvoiceValue > 0.0
    ensures LoyaltyPrograms in r <==> c.totalCustomers > 5
    ensures forall i, j :: 0 <= i < j < |r| ==> RecommendationRule(r[i]) < RecommendationRule(r[j])
  {
    (if f.overdueInvoices > 0 then [PaymentReminders] else [])
    + (if f.averageInvoiceValue > 0.0 then [Upselling] else [])
    + (if c.totalCustomers > 5 then [LoyaltyPrograms] else [])
  }

  /** The `recommendations` loop of appends yields exactly `RecommendationsOf`. */
  method OverviewRecommendations(f: FinancialMetrics, c: CustomerMetrics) returns (recommendations: seq<OverviewRecommendation>)
    ensures recommendations == RecommendationsOf(f, c)
  {
    recommendations := [];
    if f.overdueInvoices > 0 {
      recommendations := recommendations + [PaymentReminders];
    }
    if f.averageInvoiceValue > 0.0 {
      recommendations := recommendations + [Upselling];
    }
    if c.totalCustomers > 5 {
      recommendations := recommendations + [LoyaltyPrograms];
    }
  }

  /** The `performance_indicators` of `generate_business_overview`. */
  function OverviewIndicators(f: FinancialMetrics, c: CustomerMetrics): (r: map<string, string>)
    ensures r.Keys == {"revenue_health", "customer_growth", "cash_flow", "business_efficiency"}
    ensures r["revenue_health"] == (if f.growthRate > 0.0 then "good" else "needs_attention")
    ensures r["customer_growth"] == (if c.newCustomers > 0 then "good" else "stable")
    ensures r["cash_flow"] == (if f.collectionRate > 70.0 then "good" else "needs_attention")
    ensures r["business_efficiency"] == (if f.averageInvoiceValue > 1000.0 then "good" else "average")
    ensures forall k :: k in r ==> r[k] in {"good", "needs_attention", "stable", "average"}
  {
    map[
      "revenue_health" := if f.growthRate > 0.0 then "good" else "needs_attention",
      "customer_growth" := if c.newCustomers > 0 then "good" else "stable",
      "cash_flow" := if f.collectionRate > 70.0 then "good" else "needs_attention",
      "business_efficiency" := if f.averageInvoiceValue > 1000.0 then "good" else "average"]
  }

  /** The record `generate_business_overview` returns for a window. */
  function OverviewOf(invoices: seq<Invoice>, customers: seq<Customer>, user: string, start: Day, end: Day): BusinessOverview {
    var f := FinancialMetricsOf(invoices, user, start, end);
    var c := CustomerMetricsOf(invoices, customers, user, start, end);
    BusinessOverview(f, SalesMetricsOf(invoices, user, start, end), c, InsightsOf(f, c), RecommendationsOf(f, c),
      OverviewIndicators(f, c))
  }

  /**
   * `generate_business_overview`: the three metric records of the window,
   * then the insights, recommendations and indicators derived from them.
   */
  method GenerateBusinessOverview(invoices: seq<Invoice>, customers: seq<Customer>, user: string, start: Day, end: Day)
    returns (o: BusinessOverview)
    ensures o.financialMetrics == FinancialMetricsOf(invoices, user, start, end)
    ensures o.salesMetrics == SalesMetricsOf(invoices, user, start, end)
    ensures o.customerMetrics == CustomerMetricsOf(invoices, customers, user, start, end)
    ensures o.keyInsights == InsightsOf(o.financialMetrics, o.customerMetrics)
    ensures o.recommendations == RecommendationsOf(o.financialMetrics, o.customerMetrics)
    ensures o.performanceIndicators == OverviewIndicators(o.financialMetrics, o.customerMetrics)
    ensures o == OverviewOf(invoices, customers, user, start, end)
  {
    var f := FinancialMetricsOf(invoices, user, start, end);
    var s := SalesMetricsOf(invoices, user, start, end);
    var c := GetCustomerMetrics(invoices, customers, user, start, end);
    var insights := OverviewInsights(f, c);
    var recommendations := OverviewRecommendations(f, c);
    o := BusinessOverview(f, s, c, insights, recommendations, OverviewIndicators(f, c));
  }

  // ---------------------------------------------------------------------
  // Charts

  function TrendPoints(trend: seq<TrendEntry>): (r: seq<ChartPoint>)
    ensures |r| == |trend|
    ensures forall i :: 0 <= i < |r| ==> r[i] == TrendPoint(trend[i])
  {
    if trend == [] then [] else [TrendPoint(trend[0])] + TrendPoints(trend[1..])
  }

  function CustomerPoints(top: seq<TopCustomer>): (r: seq<ChartPoint>)
    ensures |r| == |top|
    ensures forall i :: 0 <= i < |r| ==> r[i] == CustomerPoint(top[i])
  {
    if top == [] then [] else [CustomerPoint(top[0])] + CustomerPoints(top[1..])
  }

  function StatusPoints(counts: seq<(string, real)>): (r: seq<ChartPoint>)
    ensures |r| == |counts|
    ensures forall i :: 0 <= i < |r| ==> r[i] == StatusPoint(counts[i].0, counts[i].1.Floor)
  {
    if counts == [] then [] else [StatusPoint(counts[0].0, counts[0].1.Floor)] + StatusPoints(counts[1..])
  }

  /** One `(payment status or "unknown", 1)` pair per invoice. */
  function StatusOnes(invoices: seq<Invoice>): (r: seq<(string, real)>)
    ensures |r| == |invoices|
    ensures forall i :: 0 <= i < |r| ==> r[i] == (PaymentStatusLabel(invoices[i].paymentStatus), 1.0)
  {
    if invoices == [] then [] else [(PaymentStatusLabel(invoices[0].paymentStatus), 1.0)] + StatusOnes(invoices[1..])
  }

  /** The `status_counts` dictionary of the window. */
  function StatusCounts(invoices: seq<Invoice>, user: string, start: Day, end: Day): seq<(string, real)> {
    Folds.GroupSum(StatusOnes(Folds.Filter(invoices, InWindow(user, start, end))))
  }

  /** Invoices whose payment status prints as `name`. */
  function HasLabel(name: string): Invoice -> bool {
    (inv: Invoice) => PaymentStatusLabel(inv.paymentStatus) == name
  }

  /** The ones carried for a status label add up to the number of invoices with that label. */
  lemma {:induction false} OnesPerLabel(invoices: seq<Invoice>, name: string)
    ensures Folds.SumFor(StatusOnes(invoices), name) == |Folds.Filter(invoices, HasLabel(name))| as real
  {
    if invoices != [] {
      OnesPerLabel(invoices[1..], name);
      assert StatusOnes(invoices)[1..] == StatusOnes(invoices[1..]);
    }
  }

  /** The labels of the ones are the labels of the invoices. */
  lemma OnesLabels(invoices: seq<Invoice>)
    ensures Folds.KeySet(StatusOnes(invoices)) == set inv | inv in invoices :: PaymentStatusLabel(inv.paymentStatus)
  {
    var ones := StatusOnes(invoices);
    forall l | l in Folds.KeySet(ones) ensures exists inv :: inv in invoices && PaymentStatusLabel(inv.paymentStatus) == l {
      var i :| 0 <= i < |ones| && ones[i].0 == l;
      assert invoices[i] in invoices;
    }
    forall inv | inv in invoices ensures PaymentStatusLabel(inv.paymentStatus) in Folds.KeySet(ones) {
      var i :| 0 <= i < |invoices| && invoices[i] == inv;
      assert ones[i].0 == PaymentStatusLabel(inv.paymentStatus);
    }
  }

  lemma {:induction false} SumOfOnes(invoices: seq<Invoice>)
    ensures Folds.Sum(StatusOnes(invoices), Folds.Value) == |invoices| as real
  {
    if invoices != [] {
      SumOfOnes(invoices[1..]);
      assert StatusOnes(invoices)[1..] == StatusOnes(invoices[1..]);
    }
  }

  function AsList(c: Option<ChartData>): (r: seq<ChartData>)
    ensures |r| <= 1
    ensures r == [] <==> c.None?
  {
    match c
    case None => []
    case Some(chart) => [chart]
  }

  /**
   * `generate_chart_data`: one chart for a known chart type, built from the
   * window. A chart with no rows fails validation, and the failure makes the
   * whole call return [].
   */
  function GenerateChartData(invoices: seq<Invoice>, customers: seq<Customer>, user: string, chartType: string,
                             start: Day, end: Day): (r: seq<ChartData>)
    ensures |r| <= 1
  {
    if chartType == "revenue_trend" then
      AsList(MakeChart("line", "Revenue Trend", TrendPoints(SalesTrend(invoices, user, start, end)), "date", "sales",
        ["#3B82F6"], Some("Daily revenue trend over the selected period")))
    else if chartType == "invoice_status" then
      AsList(MakeChart("pie", "Invoice Status Distribution", StatusPoints(StatusCounts(invoices, user, start, end)),
        "status", "count", ["#10B981", "#F59E0B", "#EF4444"], Some("Distribution of invoice statuses")))
    else if chartType == "top_customers" then
      AsList(MakeChart("bar", "Top Customers by Revenue",
        CustomerPoints(CustomerMetricsOf(invoices, customers, user, start, end).topCustomers), "name", "value",
        ["#8B5CF6"], Some("Top customers ranked by total revenue")))
    else []
  }

  /**
   * An unknown type gives []; the trend chart exists iff the window has a
   * day and plots the daily trend; the status chart exists iff the window
   * has an invoice, has one row per distinct status label, each row the
   * number of the window's invoices with that label, and its counts add up
   * to the window's invoices; the customer chart exists iff some top
   * customer was found, and plots the top customers.
   */
  lemma ChartDataLaws(invoices: seq<Invoice>, customers: seq<Customer>, user: string, chartType: string, start: Day, end: Day)
    ensures var r := GenerateChartData(invoices, customers, user, chartType, start, end);
      var window := Folds.Filter(invoices, InWindow(user, start, end));
      var counts := StatusCounts(invoices, user, start, end);
      (chartType !in {"revenue_trend", "invoice_status", "top_customers"} ==> r == [])
      && (chartType == "revenue_trend" ==>
            (r != [] <==> start <= end)
            && (r != [] ==> r[0].data == TrendPoints(SalesTrend(invoices, user, start, end))))
      && (chartType == "invoice_status" ==>
            (r != [] <==> window != [])
            && Folds.DistinctKeys(counts)
            && Folds.Sum(counts, Folds.Value) == |window| as real
            && (r != [] ==>
                  |r[0].data| == |counts|
                  && forall k :: 0 <= k < |counts| ==>
                       r[0].data[k] == StatusPoint(counts[k].0, |Folds.Filter(window, HasLabel(counts[k].0))|)))
      && (chartType == "top_customers" ==>
            (r != [] <==> CustomerMetricsOf(invoices, customers, user, start, end).topCustomers != [])
            && (r != [] ==> r[0].data == CustomerPoints(CustomerMetricsOf(invoices, customers, user, start, end).topCustomers)))
  {
    StatusCountsLaws(invoices, user, start, end);
  }

  /**
   * The status counts have one entry per distinct label, and exactly the
   * labels that occur in the window; each entry counts the window's
   * invoices with its label; the counts add up to the window's size and are
   * empty only for an empty window.
   */
  lemma StatusCountsLaws(invoices: seq<Invoice>, user: string, start: Day, end: Day)
    ensures var window := Folds.Filter(invoices, InWindow(user, start, end));
      var counts := StatusCounts(invoices, user, start, end);
      (counts != [] <==> window != [])
      && Folds.DistinctKeys(counts)
      && Folds.KeySet(counts) == (set inv | inv in window :: PaymentStatusLabel(inv.paymentStatus))
      && (forall k :: 0 <= k < |counts| ==> counts[k].1 == |Folds.Filter(window, HasLabel(counts[k].0))| as real)
      && Folds.Sum(counts, Folds.Value) == |window| as real
  {
    var window := Folds.Filter(invoices, InWindow(user, start, end));
    var ones := StatusOnes(window);
    Folds.GroupSumLaws(ones);
    SumOfOnes(window);
    OnesLabels(window);
    var counts := Folds.GroupSum(ones);
    forall k | 0 <= k < |counts| ensures counts[k].1 == |Folds.Filter(window, HasLabel(counts[k].0))| as real {
      OnesPerLabel(window, counts[k].0);
    }
    if window != [] {
      assert ones[0].0 in Folds.KeySet(ones);
    } else {
      assert Folds.KeySet(ones) == {};
    }
  }

  // ---------------------------------------------------------------------
  // KPIs

  /** The four `KPIMetric(...)` constructions of `get_kpi_metrics`, in order; each may fail validation. */
  function KpiCandidates(f: FinancialMetrics, c: CustomerMetrics): seq<Option<KpiMetric>> {
    [ MakeKpi("Total Revenue", f.totalRevenue, "₹", f.growthRate,
        if f.growthRate > 0.0 then "positive" else "negative", "Total revenue for the period",
        Some(f.totalRevenue * 1.2), f.growthRate > 0.0),
      MakeKpi("Collection Rate", f.collectionRate, "%", 0.0, "neutral", "Percentage of invoices paid on time",
        Some(85.0), f.collectionRate > 75.0),
      MakeKpi("Average Invoice Value", f.averageInvoiceValue, "₹", 0.0, "neutral", "Average value per invoice",
        Some(f.averageInvoiceValue * 1.15), f.averageInvoiceValue > 1000.0),
      MakeKpi("New Customers", c.newCustomers as real, "", 0.0, "neutral", "New customers acquired this period",
        Some(c.newCustomers as real * 1.25), c.newCustomers > 0) ]
  }

  /** The list when every construction succeeds, [] when any raises (the `except` branch). */
  function AllOrNothing(candidates: seq<Option<KpiMetric>>): (r: seq<KpiMetric>)
    ensures r != [] ==> |r| == |candidates| && forall i :: 0 <= i < |r| ==> candidates[i] == Some(r[i])
    ensures (exists i :: 0 <= i < |candidates| && candidates[i].None?) ==> r == []
  {
    if candidates == [] then []
    else match candidates[0]
      case None => []
      case Some(k) =>
        var rest := AllOrNothing(candidates[1..]);
        if rest == [] && |candidates| > 1 then [] else [k] + rest
  }

  /** `get_kpi_metrics`. */
  function GetKpiMetrics(invoices: seq<Invoice>, customers: seq<Customer>, user: string, start: Day, end: Day): seq<KpiMetric> {
    AllOrNothing(KpiCandidates(FinancialMetricsOf(invoices, user, start, end),
      CustomerMetricsOf(invoices, customers, user, start, end)))
  }

  /**
   * The first three KPIs validate, with targets of 120% of revenue, 85%,
   * and 115% of the average, and their `is_good` thresholds; the fourth
   * has an empty unit, so its construction always fails.
   */
  lemma KpiCandidatesLaws(f: FinancialMetrics, c: CustomerMetrics)
    ensures var k := KpiCandidates(f, c);
      |k| == 4
      && k[0].Some? && k[0].value.target == Some(f.totalRevenue * 1.2) && (k[0].value.isGood <==> f.growthRate > 0.0)
      && k[1].Some? && k[1].value.target == Some(85.0) && (k[1].value.isGood <==> f.collectionRate > 75.0)
      && k[2].Some? && k[2].value.target == Some(f.averageInvoiceValue * 1.15)
      && (k[2].value.isGood <==> f.averageInvoiceValue > 1000.0)
      && k[3].None?
  {
  }

  /** As written, `get_kpi_metrics` returns [] for every input. */
  lemma KpiMetricsAlwaysEmpty(invoices: seq<Invoice>, customers: seq<Customer>, user: string, start: Day, end: Day)
    ensures GetKpiMetrics(invoices, customers, user, start, end) == []
  {
    var k := KpiCandidates(FinancialMetricsOf(invoices, user, start, end), CustomerMetricsOf(invoices, customers, user, start, end));
    assert k[3].None?;
  }
}
