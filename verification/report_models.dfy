/**
 * The report records of `reports/models.py`: the request, the three metric
 * records and the overview with their all-zero defaults, and the two records
 * whose construction can fail validation (`ChartData`, `KPIMetric`).
 * Formatted messages are kept as tags carrying the numbers they print.
 */
module ReportModels {
  import opened Wrappers
  import opened Calendar
  import opened Records

  datatype ReportType = FinancialReport | SalesReport | CustomerReport | InvoiceReport | OverviewReport | CustomReport

  datatype ReportPeriod = Today | Week | Month | Quarter | Year | Custom {
    /** The enumeration value, which is also the name `get_date_range` expects. */
    function Name(): string {
      match this
      case Today => "today"
      case Week => "week"
      case Month => "month"
      case Quarter => "quarter"
      case Year => "year"
      case Custom => "custom"
    }
  }

  /** Request validation of the `period` field: exactly the six enumeration values are accepted. */
  function ParsePeriod(s: string): (r: Option<ReportPeriod>)
    ensures r.Some? ==> r.value.Name() == s
  {
    if s == "today" then Some(Today)
    else if s == "week" then Some(Week)
    else if s == "month" then Some(Month)
    else if s == "quarter" then Some(Quarter)
    else if s == "year" then Some(Year)
    else if s == "custom" then Some(Custom)
    else None
  }

  lemma ParsePeriodName(p: ReportPeriod)
    ensures ParsePeriod(p.Name()) == Some(p)
  {
  }

  datatype ReportRequest = ReportRequest(
    reportType: ReportType,
    period: ReportPeriod,
    startDate: Option<Date>,
    endDate: Option<Date>,
    includeCharts: bool,
    includeInsights: bool)

  /** A request that gives only the two required fields. */
  function RequestWithDefaults(reportType: ReportType, period: ReportPeriod): (r: ReportRequest)
    ensures r.includeCharts && r.includeInsights
    ensures r.startDate.None? && r.endDate.None?
  {
    ReportRequest(reportType, period, None, None, true, true)
  }

  // ---------------------------------------------------------------------
  // Metric records

  datatype FinancialMetrics = FinancialMetrics(
    totalRevenue: real,
    totalInvoices: int,
    paidInvoices: int,
    pendingInvoices: int,
    overdueInvoices: int,
    averageInvoiceValue: real,
    totalOutstanding: real,
    collectionRate: real,
    growthRate: real,
    profitMargin: real)

  const DefaultFinancialMetrics := FinancialMetrics(0.0, 0, 0, 0, 0, 0.0, 0.0, 0.0, 0.0, 0.0)

  /** One day of the sales trend: `{"date", "sales", "count"}`. */
  datatype TrendEntry = TrendEntry(day: Day, sales: real, count: int)

  datatype SalesMetrics = SalesMetrics(
    totalSales: real,
    salesCount: int,
    averageSaleValue: real,
    topSellingPeriods: seq<(string, real)>,
    salesTrend: seq<TrendEntry>,
    conversionRate: real,
    recurringRevenue: real)

  const DefaultSalesMetrics := SalesMetrics(0.0, 0, 0.0, [], [], 0.0, 0.0)

  datatype CustomerMetrics = CustomerMetrics(
    totalCustomers: int,
    activeCustomers: int,
    newCustomers: int,
    customerRetentionRate: real,
    averageCustomerValue: real,
    topCustomers: seq<TopCustomer>,
    churnRate: real)

  const DefaultCustomerMetrics := CustomerMetrics(0, 0, 0, 0.0, 0.0, [], 0.0)

  /** The messages of `key_insights`, with the values they print. */
  datatype OverviewInsight =
    | RevenueGrew(rate: real)
    | RevenueDeclined(rate: real)
    | CollectionHealthy(rate: real)
    | CollectionLow(rate: real)
    | NewCustomersAcquired(count: int)

  /** The messages of `recommendations`. */
  datatype OverviewRecommendation = PaymentReminders | Upselling | LoyaltyPrograms

  datatype BusinessOverview = BusinessOverview(
    financialMetrics: FinancialMetrics,
    salesMetrics: SalesMetrics,
    customerMetrics: CustomerMetrics,
    keyInsights: seq<OverviewInsight>,
    recommendations: seq<OverviewRecommendation>,
    performanceIndicators: map<string, string>)

  const DefaultBusinessOverview :=
    BusinessOverview(DefaultFinancialMetrics, DefaultSalesMetrics, DefaultCustomerMetrics, [], [], map[])

  // ---------------------------------------------------------------------
  // Validated records

  /** The rows a chart can carry. */
  datatype ChartPoint =
    | TrendPoint(entry: TrendEntry)
    | StatusPoint(status: string, count: int)
    | CustomerPoint(customer: TopCustomer)

  datatype ChartData = ChartData(
    chartType: string,
    title: string,
    data: seq<ChartPoint>,
    xAxis: string,
    yAxis: string,
    colors: seq<string>,
    description: Option<string>)

  /**
   * `ChartData(...)`: construction succeeds only with at least one data row
   * and non-empty type, title and axis names; otherwise it raises.
   */
  function MakeChart(chartType: string, title: string, data: seq<ChartPoint>, xAxis: string, yAxis: string,
                     colors: seq<string>, description: Option<string>): (r: Option<ChartData>)
    ensures r.Some? <==> |data| >= 1 && chartType != "" && title != "" && xAxis != "" && yAxis != ""
    ensures r.Some? ==> r.value == ChartData(chartType, title, data, xAxis, yAxis, colors, description)
  {
    if |data| >= 1 && chartType != "" && title != "" && xAxis != "" && yAxis != "" then
      Some(ChartData(chartType, title, data, xAxis, yAxis, colors, description))
    else None
  }

  datatype KpiMetric = KpiMetric(
    name: string,
    value: real,
    unit: string,
    change: real,
    changeType: string,
    description: string,
    target: Option<real>,
    isGood: bool)

  /** `KPIMetric(...)`: construction succeeds only with non-empty name, unit and description. */
  function MakeKpi(name: string, value: real, unit: string, change: real, changeType: string,
                   description: string, target: Option<real>, isGood: bool): (r: Option<KpiMetric>)
    ensures r.Some? <==> name != "" && unit != "" && description != ""
    ensures r.Some? ==> r.value.value == value && r.value.unit == unit && r.value.isGood == isGood
  {
    if name != "" && unit != "" && description != "" then
      Some(KpiMetric(name, value, unit, change, changeType, description, target, isGood))
    else None
  }
}
