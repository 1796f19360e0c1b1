/**
 * The business-context logic of `ai_assistant/utils.py`, without the
 * language-model call: the per-user context cache, the context aggregates,
 * the two month-over-month growth figures, and the rule-based insights and
 * recommendations drawn from a context. Instants of the cache clock are
 * microseconds; "today" is a date parameter.
 */
module AiUtils {
  import opened Wrappers
  import opened Calendar
  import opened Records
  import Folds
  import Ratios

  // ---------------------------------------------------------------------
  // Business context

  datatype RecentTrends = RecentTrends(recentInvoicesCount: int, recentCustomersCount: int, recentRevenue: real)

  datatype BusinessMetrics = BusinessMetrics(
    averageInvoiceValue: real,
    paymentRate: real,
    customerGrowth: real,
    revenueGrowth: real)

  /**
   * `BusinessContext`. The two dictionaries are `None` in the default
   * context, where every `.get(key, 0)` reads 0.
   */
  datatype BusinessContext = BusinessContext(
    totalCustomers: int,
    totalInvoices: int,
    totalRevenue: real,
    pendingPayments: real,
    overdueAmount: real,
    topCustomers: seq<TopCustomer>,
    recentTrends: Option<RecentTrends>,
    businessMetrics: Option<BusinessMetrics>)

  /** `BusinessContext()`: every field at its default. */
  const EmptyContext := BusinessContext(0, 0, 0.0, 0.0, 0.0, [], None, None)

  function RevenueGrowthOf(ctx: BusinessContext): real {
    if ctx.businessMetrics.Some? then ctx.businessMetrics.value.revenueGrowth else 0.0
  }

  function CustomerGrowthOf(ctx: BusinessContext): real {
    if ctx.businessMetrics.Some? then ctx.businessMetrics.value.customerGrowth else 0.0
  }

  function AverageInvoiceValueOf(ctx: BusinessContext): real {
    if ctx.businessMetrics.Some? then ctx.businessMetrics.value.averageInvoiceValue else 0.0
  }

  // ---------------------------------------------------------------------
  // Month-over-month growth

  /** The month before `(y, m)`. */
  function MonthBefore(y: int, m: int): (r: (int, int))
    requires 1 <= m <= 12
    ensures 1 <= r.1 <= 12
  {
    if m > 1 then (y, m - 1) else (y - 1, 12)
  }

  /** `current_month`: the first day of today's month. */
  function CurrentMonthStart(today: Date): (r: Date)
    requires ValidDate(today)
    ensures ValidDate(r)
  {
    Date(today.year, today.month, 1)
  }

  /** `(current_month - timedelta(days=32)).replace(day=1)`. */
  function PreviousMonthStart(today: Date): (r: Date)
    requires ValidDate(today)
    ensures ValidDate(r)
  {
    var back := MinusDays(CurrentMonthStart(today), 32);
    Date(back.year, back.month, 1)
  }

  /**
   * The "previous" window starts on the first day of the month two months
   * back, so it spans two whole calendar months up to the current month.
   */
  lemma PreviousWindowIsTwoMonths(today: Date)
    requires ValidDate(today)
    ensures var (y1, m1) := MonthBefore(today.year, today.month);
      var (y2, m2) := MonthBefore(y1, m1);
      PreviousMonthStart(today) == Date(y2, m2, 1)
  {
    var first := CurrentMonthStart(today);
    var (y1, m1) := MonthBefore(today.year, today.month);
    var (y2, m2) := MonthBefore(y1, m1);
    var d1, d2 := DaysInMonth(y1, m1), DaysInMonth(y2, m2);
    var last1 := Date(y1, m1, d1);
    var first1 := Date(y1, m1, 1);
    var last2 := Date(y2, m2, d2);
    assert PrevDay(first) == last1;
    assert PrevDay(first1) == last2;
    MinusDaysAdd(first, 1, 31);
    assert MinusDays(first, 1) == last1;
    MinusDaysAdd(last1, d1 - 1, 32 - d1);
    MinusDaysWithinMonth(last1, d1 - 1);
    assert MinusDays(first1, 32 - d1) == MinusDays(last2, 31 - d1);
    MinusDaysWithinMonth(last2, 31 - d1);
  }

  /** The user's paid invoices created on or after `start`, and before `end` when one is given. */
  function PaidSince(u: string, start: Day, end: Option<Day>): Invoice -> bool {
    (inv: Invoice) => inv.userId == u && IsPaid(inv) && start <= inv.createdAt && (end.None? || inv.createdAt < end.value)
  }

  function CreatedSince(u: string, start: Day, end: Option<Day>): Customer -> bool {
    (c: Customer) => c.userId == u && start <= c.createdAt && (end.None? || c.createdAt < end.value)
  }

  /**
   * `_calculate_revenue_growth`: paid revenue from the current month's
   * first day on, against the previous window.
   */
  function RevenueGrowth(invoices: seq<Invoice>, u: string, today: Date): (r: real)
    requires ValidDate(today)
  {
    var cur := ToOrdinal(CurrentMonthStart(today));
    var prev := ToOrdinal(PreviousMonthStart(today));
    Ratios.GrowthPercent(WindowRevenue(invoices, PaidSince(u, cur, None)),
                         WindowRevenue(invoices, PaidSince(u, prev, Some(cur))))
  }

  /** `_calculate_customer_growth`: the same windows and formula, over customer counts. */
  function CustomerGrowth(customers: seq<Customer>, u: string, today: Date): (r: real)
    requires ValidDate(today)
  {
    var cur := ToOrdinal(CurrentMonthStart(today));
    var prev := ToOrdinal(PreviousMonthStart(today));
    Ratios.GrowthPercent(|Folds.Filter(customers, CreatedSince(u, cur, None))| as real,
                         |Folds.Filter(customers, CreatedSince(u, prev, Some(cur)))| as real)
  }

  /** The paid revenue of the user's invoices matching a window. */
  function WindowRevenue(invoices: seq<Invoice>, window: Invoice -> bool): real {
    Folds.Sum(Folds.Filter(invoices, window), Amount)
  }

  /**
   * Revenue growth is 100 or 0 when the previous window earned nothing, and
   * otherwise the percentage change from the previous window to the current.
   */
  lemma RevenueGrowthLaws(invoices: seq<Invoice>, u: string, today: Date)
    requires ValidDate(today)
    ensures var cur := ToOrdinal(CurrentMonthStart(today));
      var now := WindowRevenue(invoices, PaidSince(u, cur, None));
      var before := WindowRevenue(invoices, PaidSince(u, ToOrdinal(PreviousMonthStart(today)), Some(cur)));
      var g := RevenueGrowth(invoices, u, today);
      (before == 0.0 ==> g == if now > 0.0 then 100.0 else 0.0)
      && (before != 0.0 ==> before + before * g / 100.0 == now)
  {
    var cur := ToOrdinal(CurrentMonthStart(today));
    var now := WindowRevenue(invoices, PaidSince(u, cur, None));
    var before := WindowRevenue(invoices, PaidSince(u, ToOrdinal(PreviousMonthStart(today)), Some(cur)));
    assert RevenueGrowth(invoices, u, today) == Ratios.GrowthPercent(now, before);
  }

  /** Customer counts never shrink by more than everything: customer growth is at least -100. */
  lemma CustomerGrowthBounded(customers: seq<Customer>, u: string, today: Date)
    requires ValidDate(today)
    ensures CustomerGrowth(customers, u, today) >= -100.0
  {
    var cur := ToOrdinal(CurrentMonthStart(today));
    var prev := ToOrdinal(PreviousMonthStart(today));
    GrowthOfCountsBounded(|Folds.Filter(customers, CreatedSince(u, cur, None))| as real,
                          |Folds.Filter(customers, CreatedSince(u, prev, Some(cur)))| as real);
  }

  lemma GrowthOfCountsBounded(n: real, p: real)
    requires n >= 0.0 && p >= 0.0
    ensures Ratios.GrowthPercent(n, p) >= -100.0
  {
    if p > 0.0 {
      RelativeChangeBounded(n, p);
    }
  }

  lemma RelativeChangeBounded(n: real, p: real)
    requires n >= 0.0 && p > 0.0
    ensures (n - p) / p >= -1.0
  {
    var q := (n - p) / p;
    assert q * p == n - p;
    assert q * p >= -p;
    CancelPositive(p, q, -1.0);
  }

  lemma CancelPositive(p: real, a: real, b: real)
    requires p > 0.0 && a * p >= b * p
    ensures a >= b
  {
  }

  // ---------------------------------------------------------------------
  // Context aggregates

  /** The `recent_trends` of `_calculate_trends`: the last thirty days, today included. */
  function TrendsOf(customers: seq<Customer>, invoices: seq<Invoice>, u: string, today: Date): RecentTrends
    requires ValidDate(today)
  {
    var since := ToOrdinal(today) - 30;
    var recent := Folds.Filter(invoices, (inv: Invoice) => inv.userId == u && inv.createdAt >= since);
    RecentTrends(|recent|, |Folds.Filter(customers, CreatedSince(u, since, None))|,
      Folds.Sum(Folds.Filter(recent, IsPaid), Amount))
  }

  /**
   * The context `get_business_context` computes on a miss: counts, the paid,
   * pending and overdue sums, the five best-paying known customers, the
   * recent trends and the business metrics.
   */
  function ContextOf(customers: seq<Customer>, invoices: seq<Invoice>, u: string, today: Date): BusinessContext
    requires ValidDate(today)
  {
    var cs := Folds.Filter(customers, CustomersOf(u));
    var mine := Folds.Filter(invoices, InvoicesOf(u));
    var paid := Folds.Filter(mine, IsPaid);
    var revenue := Folds.Sum(paid, Amount);
    BusinessContext(
      |cs|, |mine|, revenue,
      Folds.Sum(Folds.Filter(mine, IsPending), Amount),
      Folds.Sum(Folds.Filter(mine, HasOverdueStatus), Amount),
      JoinTopCustomers(Folds.TopN(Folds.GroupSum(CustomerAmounts(paid)), 5), cs),
      Some(TrendsOf(customers, invoices, u, today)),
      Some(BusinessMetrics(
        Ratios.Average(revenue, |mine|),
        Ratios.Percent(|paid| as real, |mine| as real),
        CustomerGrowth(customers, u, today),
        RevenueGrowth(invoices, u, today))))
  }

  /**
   * The aggregates: the average is the paid revenue over all invoices, the
   * payment rate a percentage, and the top customers at most five known
   * customers by descending paid revenue.
   */
  lemma ContextLaws(customers: seq<Customer>, invoices: seq<Invoice>, u: string, today: Date)
    requires ValidDate(today)
    ensures var ctx := ContextOf(customers, invoices, u, today);
      var mine := Folds.Filter(invoices, InvoicesOf(u));
      var m := ctx.businessMetrics.value;
      ctx.businessMetrics.Some?
      && ctx.totalInvoices == |mine|
      && ctx.totalRevenue == Folds.Sum(Folds.Filter(mine, IsPaid), Amount)
      && m.averageInvoiceValue == Ratios.Average(ctx.totalRevenue, ctx.totalInvoices)
      && 0.0 <= m.paymentRate <= 100.0
      && |ctx.topCustomers| <= 5
      && (forall i, j :: 0 <= i < j < |ctx.topCustomers| ==> ctx.topCustomers[i].value >= ctx.topCustomers[j].value)
      && (forall i :: 0 <= i < |ctx.topCustomers| ==>
            FindCustomer(Folds.Filter(customers, CustomersOf(u)), ctx.topCustomers[i].id).Some?)
  {
    var cs := Folds.Filter(customers, CustomersOf(u));
    var mine := Folds.Filter(invoices, InvoicesOf(u));
    var ranking := Folds.TopN(Folds.GroupSum(CustomerAmounts(Folds.Filter(mine, IsPaid))), 5);
    Folds.TopNLaws(Folds.GroupSum(CustomerAmounts(Folds.Filter(mine, IsPaid))), 5);
    Folds.FilterSortedDesc(ranking, IsKnown(cs));
  }

  /** Each top customer of the context carries the user's paid revenue from that customer. */
  lemma ContextTopCustomerValues(customers: seq<Customer>, invoices: seq<Invoice>, u: string, today: Date)
    requires ValidDate(today)
    ensures var ctx := ContextOf(customers, invoices, u, today);
      var paid := Folds.Filter(Folds.Filter(invoices, InvoicesOf(u)), IsPaid);
      forall i :: 0 <= i < |ctx.topCustomers| ==>
        ctx.topCustomers[i].value == Folds.SumFor(CustomerAmounts(paid), ctx.topCustomers[i].id)
  {
    var pairs := CustomerAmounts(Folds.Filter(Folds.Filter(invoices, InvoicesOf(u)), IsPaid));
    var cs := Folds.Filter(customers, CustomersOf(u));
    var top := ContextOf(customers, invoices, u, today).topCustomers;
    assert top == JoinTopCustomers(Folds.TopN(Folds.GroupSum(pairs), 5), cs);
    JoinedTotals(pairs, 5, cs);
  }

  // ---------------------------------------------------------------------
  // Context cache

  type Instant = int

  /** `cache_expiry`: 300 seconds, in microseconds. */
  const CacheExpiry: int := 300 * 1000000

  datatype CacheEntry = CacheEntry(data: BusinessContext, timestamp: Instant)

  function CacheKey(u: string): string {
    "business_context_" + u
  }

  /** Different users never share a cache entry. */
  lemma CacheKeyInjective(u: string, v: string)
    ensures CacheKey(u) == CacheKey(v) ==> u == v
  {
    if CacheKey(u) == CacheKey(v) {
      var n := |"business_context_"|;
      assert u == CacheKey(u)[n..];
      assert v == CacheKey(v)[n..];
    }
  }

  /** A fresh entry: stored under the user's key less than 300 seconds before `now`. */
  predicate Hit(cache: map<string, CacheEntry>, u: string, now: Instant) {
    CacheKey(u) in cache && now - cache[CacheKey(u)].timestamp < CacheExpiry
  }

  /** The `AIAssistant` object, whose `business_context_cache` dictionary is updated in place. */
  class AiAssistant {
    var cache: map<string, CacheEntry>

    constructor()
      ensures cache == map[]
    {
      cache := map[];
    }

    /**
     * `get_business_context`: a fresh cached context is returned as is;
     * otherwise the context is computed from the fetched collections and
     * stored with `now`. A failed fetch (`None`) gives the empty context
     * and caches nothing.
     */
    method GetBusinessContext(u: string, now: Instant, today: Date,
                              fetched: Option<(seq<Customer>, seq<Invoice>)>) returns (ctx: BusinessContext)
      requires ValidDate(today)
      modifies this
      ensures Hit(old(cache), u, now) ==> ctx == old(cache)[CacheKey(u)].data && cache == old(cache)
      ensures !Hit(old(cache), u, now) && fetched.None? ==> ctx == EmptyContext && cache == old(cache)
      ensures !Hit(old(cache), u, now) && fetched.Some? ==>
        ctx == ContextOf(fetched.value.0, fetched.value.1, u, today)
        && cache == old(cache)[CacheKey(u) := CacheEntry(ctx, now)]
    {
      var key := CacheKey(u);
      if key in cache && now - cache[key].timestamp < CacheExpiry {
        return cache[key].data;
      }
      if fetched.None? {
        return EmptyContext;
      }
      var (customers, invoices) := fetched.value;
      ctx := BuildContext(customers, invoices, u, today);
      cache := cache[key := CacheEntry(ctx, now)];
    }
  }

  /** The context computed on a miss, with the customer-revenue dictionary built by its loop. */
  method BuildContext(customers: seq<Customer>, invoices: seq<Invoice>, u: string, today: Date)
    returns (ctx: BusinessContext)
    requires ValidDate(today)
    ensures ctx == ContextOf(customers, invoices, u, today)
  {
    var cs := Folds.Filter(customers, CustomersOf(u));
    var mine := Folds.Filter(invoices, InvoicesOf(u));
    var paid := Folds.Filter(mine, IsPaid);
    var revenue := Folds.Sum(paid, Amount);
    var customerRevenue := Folds.AccumulateTotals(CustomerAmounts(paid));
    var top := JoinTopCustomers(Folds.TopN(customerRevenue, 5), cs);
    ctx := BusinessContext(
      |cs|, |mine|, revenue,
      Folds.Sum(Folds.Filter(mine, IsPending), Amount),
      Folds.Sum(Folds.Filter(mine, HasOverdueStatus), Amount),
      top,
      Some(TrendsOf(customers, invoices, u, today)),
      Some(BusinessMetrics(
        Ratios.Average(revenue, |mine|),
        Ratios.Percent(|paid| as real, |mine| as real),
        CustomerGrowth(customers, u, today),
        RevenueGrowth(invoices, u, today))));
  }

  /**
   * A context stored at `stored` is served again, unchanged, at any instant
   * less than 300 seconds later, and entries of other users are untouched.
   */
  lemma StoredContextIsServed(cache: map<string, CacheEntry>, u: string, v: string, ctx: BusinessContext,
                              stored: Instant, later: Instant)
    requires stored <= later < stored + CacheExpiry
    ensures var next := cache[CacheKey(u) := CacheEntry(ctx, stored)];
      Hit(next, u, later) && next[CacheKey(u)].data == ctx
      && (v != u ==> (CacheKey(v) in next <==> CacheKey(v) in cache)
                     && (CacheKey(v) in cache ==> next[CacheKey(v)] == cache[CacheKey(v)]))
  {
    CacheKeyInjective(u, v);
  }

  // ---------------------------------------------------------------------
  // Insights and recommendations

  /** The insights `generate_business_insights` emits, with the figures they print. */
  datatype Insight =
    | StrongRevenueGrowth(rate: real)
    | RevenueDecline(rate: real)
    | HighOverduePayments(amount: real, percentage: real)
    | ExcellentCustomerGrowth(rate: real)

  /** `overdue_amount / total_revenue * 100`, or 0 without revenue. */
  function OverduePercentage(ctx: BusinessContext): real {
    if ctx.totalRevenue > 0.0 then ctx.overdueAmount / ctx.totalRevenue * 100.0 else 0.0
  }

  /** Which rule of `generate_business_insights` emits an insight: 0 revenue, 1 overdue, 2 customers. */
  function InsightRule(x: Insight): nat {
    match x
    case StrongRevenueGrowth(_) => 0
    case RevenueDecline(_) => 0
    case HighOverduePayments(_, _) => 1
    case ExcellentCustomerGrowth(_) => 2
  }

  /**
   * `generate_business_insights` on a context: the revenue rules only with
   * revenue, the overdue rule above 10 % of revenue, the customer rule
   * above 15 % growth; at most one insight per rule, in the order of the
   * rules.
   */
  function InsightsFor(ctx: BusinessContext): (insights: seq<Insight>)
    ensures var g, c := RevenueGrowthOf(ctx), CustomerGrowthOf(ctx);
      var p := OverduePercentage(ctx);
      |insights| <= 3
      && (StrongRevenueGrowth(g) in insights <==> ctx.totalRevenue > 0.0 && g > 20.0)
      && (RevenueDecline(if g < 0.0 then -g else g) in insights <==> ctx.totalRevenue > 0.0 && g < -10.0)
      && (HighOverduePayments(ctx.overdueAmount, p) in insights <==>
            ctx.overdueAmount > 0.0 && ctx.totalRevenue > 0.0 && ctx.overdueAmount * 100.0 > 10.0 * ctx.totalRevenue)
      && (ExcellentCustomerGrowth(c) in insights <==> c > 15.0)
      && (forall x :: x in insights ==>
            x in {StrongRevenueGrowth(g), RevenueDecline(if g < 0.0 then -g else g), HighOverduePayments(ctx.overdueAmount, p),
                  ExcellentCustomerGrowth(c)})
    ensures forall i, j :: 0 <= i < j < |insights| ==> InsightRule(insights[i]) < InsightRule(insights[j])
  {
    OverduePercentageRule(ctx);
    var g, c, p := RevenueGrowthOf(ctx), CustomerGrowthOf(ctx), OverduePercentage(ctx);
    (if ctx.totalRevenue > 0.0 && g > 20.0 then [StrongRevenueGrowth(g)]
     else if ctx.totalRevenue > 0.0 && g < -10.0 then [RevenueDecline(if g < 0.0 then -g else g)]
     else [])
    + (if ctx.overdueAmount > 0.0 && p > 10.0 then [HighOverduePayments(ctx.overdueAmount, p)] else [])
    + (if c > 15.0 then [ExcellentCustomerGrowth(c)] else [])
  }

  /** The appends of `generate_business_insights` yield exactly `InsightsFor`. */
  method GenerateBusinessInsights(ctx: BusinessContext) returns (insights: seq<Insight>)
    ensures insights == InsightsFor(ctx)
  {
    insights := [];
    var g := RevenueGrowthOf(ctx);
    if ctx.totalRevenue > 0.0 {
      if g > 20.0 {
        insights := insights + [StrongRevenueGrowth(g)];
      } else if g < -10.0 {
        insights := insights + [RevenueDecline(if g < 0.0 then -g else g)];
      }
    }
    if ctx.overdueAmount > 0.0 {
      var p := OverduePercentage(ctx);
      if p > 10.0 {
        insights := insights + [HighOverduePayments(ctx.overdueAmount, p)];
      }
    }
    if CustomerGrowthOf(ctx) > 15.0 {
      insights := insights + [ExcellentCustomerGrowth(CustomerGrowthOf(ctx))];
    }
  }

  /** The overdue share exceeds 10 % exactly when overdue × 100 exceeds 10 × revenue, and never without revenue. */
  lemma OverduePercentageRule(ctx: BusinessContext)
    ensures OverduePercentage(ctx) > 10.0 <==> ctx.totalRevenue > 0.0 && ctx.overdueAmount * 100.0 > 10.0 * ctx.totalRevenue
  {
    if ctx.totalRevenue > 0.0 {
      var p := OverduePercentage(ctx);
      assert p * ctx.totalRevenue == ctx.overdueAmount * 100.0;
      if p > 10.0 {
        assert p * ctx.totalRevenue > 10.0 * ctx.totalRevenue;
      } else {
        assert p * ctx.totalRevenue <= 10.0 * ctx.totalRevenue;
      }
    }
  }

  /** The recommendations `generate_recommendations` emits, with the figures they print. */
  datatype Recommendation =
    | PaymentCollection(recoverable: real)
    | CustomerRetention
    | InvoiceOptimization(averageValue: real)

  /** Which rule of `generate_recommendations` emits a recommendation, in the order the rules run. */
  function RecommendationRule(x: Recommendation): nat {
    match x
    case PaymentCollection(_) => 0
    case CustomerRetention => 1
    case InvoiceOptimization(_) => 2
  }

  /**
   * `generate_recommendations` on a context: three independent rules, each
   * emitting at most once, in the order they run.
   */
  function RecommendationsFor(ctx: BusinessContext): (recommendations: seq<Recommendation>)
    ensures |recommendations| <= 3
    ensures PaymentCollection(ctx.overdueAmount * 0.7) in recommendations <==> ctx.overdueAmount > 0.0
    ensures CustomerRetention in recommendations <==> ctx.totalCustomers > 5
    ensures InvoiceOptimization(AverageInvoiceValueOf(ctx)) in recommendations <==>
      ctx.totalInvoices > 10 && AverageInvoiceValueOf(ctx) > 0.0
    ensures forall x :: x in recommendations ==>
      x in {PaymentCollection(ctx.overdueAmount * 0.7), CustomerRetention, InvoiceOptimization(AverageInvoiceValueOf(ctx))}
    ensures forall i, j :: 0 <= i < j < |recommendations| ==>
      RecommendationRule(recommendations[i]) < RecommendationRule(recommendations[j])
  {
    (if ctx.overdueAmount > 0.0 then [PaymentCollection(ctx.overdueAmount * 0.7)] else [])
    + (if ctx.totalCustomers > 5 then [CustomerRetention] else [])
    + (if ctx.totalInvoices > 10 && AverageInvoiceValueOf(ctx) > 0.0 then [InvoiceOptimization(AverageInvoiceValueOf(ctx))] else [])
  }

  /** The appends of `generate_recommendations` yield exactly `RecommendationsFor`. */
  method GenerateRecommendations(ctx: BusinessContext) returns (recommendations: seq<Recommendation>)
    ensures recommendations == RecommendationsFor(ctx)
  {
    recommendations := [];
    if ctx.overdueAmount > 0.0 {
      recommendations := recommendations + [PaymentCollection(ctx.overdueAmount * 0.7)];
    }
    if ctx.totalCustomers > 5 {
      recommendations := recommendations + [CustomerRetention];
    }
    if ctx.totalInvoices > 10 {
      var average := AverageInvoiceValueOf(ctx);
      if average > 0.0 {
        recommendations := recommendations + [InvoiceOptimization(average)];
      }
    }
  }

  /** The empty context yields neither insights nor recommendations. */
  lemma EmptyContextIsQuiet()
    ensures RevenueGrowthOf(EmptyContext) == 0.0 && CustomerGrowthOf(EmptyContext) == 0.0
    ensures OverduePercentage(EmptyContext) == 0.0 && AverageInvoiceValueOf(EmptyContext) == 0.0
  {
  }
}
