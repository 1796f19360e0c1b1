/**
 * The report endpoints of `reports/routes.py`: resolving a request's date
 * window, dispatching on the report type to the metric calculators and the
 * chart builder, the dashboard, and the paginated listing of stored reports.
 * Formatted summary lines are kept as a label and the number they print.
 */
module ReportRoutes {
  import opened Wrappers
  import opened Calendar
  import opened Records
  import opened ReportModels
  import opened ReportUtils
  import Folds
  import Helpers

  /** A request whose dates, when given, are calendar dates (as the request parser guarantees). */
  predicate WellFormedRequest(req: ReportRequest) {
    (req.startDate.Some? ==> ValidDate(req.startDate.value))
    && (req.endDate.Some? ==> ValidDate(req.endDate.value))
  }

  /**
   * The date window of `generate_report`: a custom period needs both dates
   * and uses them as given, without comparing them; any other period is
   * resolved by `get_date_range` from today.
   */
  function ResolveWindow(req: ReportRequest, today: Date): (r: Result<(Date, Date), int>)
    requires WellFormedRequest(req) && ValidDate(today)
    ensures r.Err? ==> r.error == 400
    ensures r.Err? <==> req.period == Custom && (req.startDate.None? || req.endDate.None?)
    ensures r.Ok? && req.period == Custom ==> r.value == (req.startDate.value, req.endDate.value)
    ensures req.period != Custom ==> r == Ok(Helpers.DateRange(req.period.Name(), today))
    ensures r.Ok? ==> ValidDate(r.value.0) && ValidDate(r.value.1)
  {
    if req.period == Custom then
      if req.startDate.None? || req.endDate.None? then Err(400)
      else Ok((req.startDate.value, req.endDate.value))
    else Ok(Helpers.DateRange(req.period.Name(), today))
  }

  /** What a report carries in `data`: one metric record, or nothing for the types no branch handles. */
  datatype ReportPayload =
    | NoData
    | FinancialData(financial: FinancialMetrics)
    | SalesData(sales: SalesMetrics)
    | CustomerData(customer: CustomerMetrics)
    | OverviewData(overview: BusinessOverview)

  /** An entry of `insights`: a summary line with the number it prints, or an overview insight. */
  datatype ReportInsight =
    | SummaryLine(caption: string, value: real)
    | KeyInsight(insight: OverviewInsight)

  datatype Report = Report(
    userId: string,
    reportType: ReportType,
    period: ReportPeriod,
    startDate: Date,
    endDate: Date,
    data: ReportPayload,
    charts: seq<ChartData>,
    insights: seq<ReportInsight>)

  function KeyInsights(xs: seq<OverviewInsight>): (r: seq<ReportInsight>)
    ensures |r| == |xs|
    ensures forall i :: 0 <= i < |r| ==> r[i] == KeyInsight(xs[i])
  {
    if xs == [] then [] else [KeyInsight(xs[0])] + KeyInsights(xs[1..])
  }

  /** The three `insights` lines of a financial report: total revenue, collection rate, growth rate. */
  function FinancialSummary(f: FinancialMetrics): seq<ReportInsight> {
    [SummaryLine("Total revenue", f.totalRevenue), SummaryLine("Collection rate", f.collectionRate),
     SummaryLine("Growth rate", f.growthRate)]
  }

  /** The three `insights` lines of a sales report: total sales, average sale value, sales count. */
  function SalesSummary(m: SalesMetrics): seq<ReportInsight> {
    [SummaryLine("Total sales", m.totalSales), SummaryLine("Average sale value", m.averageSaleValue),
     SummaryLine("Sales count", m.salesCount as real)]
  }

  /** The three `insights` lines of a customer report: total customers, new customers, average customer value. */
  function CustomerSummary(c: CustomerMetrics): seq<ReportInsight> {
    [SummaryLine("Total customers", c.totalCustomers as real), SummaryLine("New customers", c.newCustomers as real),
     SummaryLine("Average customer value", c.averageCustomerValue)]
  }

  /** The financial branch of `generate_report`. */
  method FinancialReportParts(invoices: seq<Invoice>, customers: seq<Customer>, user: string, s: Day, e: Day,
                              includeCharts: bool, includeInsights: bool)
    returns (data: ReportPayload, charts: seq<ChartData>, insights: seq<ReportInsight>)
    ensures data == FinancialData(FinancialMetricsOf(invoices, user, s, e))
    ensures charts == if includeCharts then GenerateChartData(invoices, customers, user, "revenue_trend", s, e) else []
    ensures insights == if includeInsights then FinancialSummary(data.financial) else []
  {
    var f := FinancialMetricsOf(invoices, user, s, e);
    data := FinancialData(f);
    charts := [];
    insights := [];
    if includeCharts {
      charts := GenerateChartData(invoices, customers, user, "revenue_trend", s, e);
    }
    if includeInsights {
      insights := FinancialSummary(f);
    }
  }

  /** The sales branch of `generate_report`. */
  method SalesReportParts(invoices: seq<Invoice>, customers: seq<Customer>, user: string, s: Day, e: Day,
                          includeCharts: bool, includeInsights: bool)
    returns (data: ReportPayload, charts: seq<ChartData>, insights: seq<ReportInsight>)
    ensures data == SalesData(SalesMetricsOf(invoices, user, s, e))
    ensures charts == if includeCharts then GenerateChartData(invoices, customers, user, "revenue_trend", s, e) else []
    ensures insights == if includeInsights then SalesSummary(data.sales) else []
  {
    var m := SalesMetricsOf(invoices, user, s, e);
    data := SalesData(m);
    charts := [];
    insights := [];
    if includeCharts {
      charts := GenerateChartData(invoices, customers, user, "revenue_trend", s, e);
    }
    if includeInsights {
      insights := SalesSummary(m);
    }
  }

  /** The customer branch of `generate_report`. */
  method CustomerReportParts(invoices: seq<Invoice>, customers: seq<Customer>, user: string, s: Day, e: Day,
                             includeCharts: bool, includeInsights: bool)
    returns (data: ReportPayload, charts: seq<ChartData>, insights: seq<ReportInsight>)
    ensures data == CustomerData(CustomerMetricsOf(invoices, customers, user, s, e))
    ensures charts == if includeCharts then GenerateChartData(invoices, customers, user, "top_customers", s, e) else []
    ensures insights == if includeInsights then CustomerSummary(data.customer) else []
  {
    var c := GetCustomerMetrics(invoices, customers, user, s, e);
    data := CustomerData(c);
    charts := [];
    insights := [];
    if includeCharts {
      charts := GenerateChartData(invoices, customers, user, "top_customers", s, e);
    }
    if includeInsights {
      insights := CustomerSummary(c);
    }
  }

  /** `charts.extend(...)` for the trend, status and customer charts, in that order. */
  method OverviewCharts(invoices: seq<Invoice>, customers: seq<Customer>, user: string, s: Day, e: Day)
    returns (charts: seq<ChartData>)
    ensures charts == GenerateChartData(invoices, customers, user, "revenue_trend", s, e)
      + GenerateChartData(invoices, customers, user, "invoice_status", s, e)
      + GenerateChartData(invoices, customers, user, "top_customers", s, e)
    ensures |charts| <= 3
  {
    var trend := GenerateChartData(invoices, customers, user, "revenue_trend", s, e);
    var status := GenerateChartData(invoices, customers, user, "invoice_status", s, e);
    var top := GenerateChartData(invoices, customers, user, "top_customers", s, e);
    charts := [];
    charts := charts + trend;
    charts := charts + status;
    charts := charts + top;
    assert charts == trend + status + top;
  }

  /** The overview branch of `generate_report`: three charts appended in a fixed order. */
  method OverviewReportParts(invoices: seq<Invoice>, customers: seq<Customer>, user: string, s: Day, e: Day,
                             includeCharts: bool, includeInsights: bool)
    returns (data: ReportPayload, charts: seq<ChartData>, insights: seq<ReportInsight>)
    ensures data == OverviewData(OverviewOf(invoices, customers, user, s, e))
    ensures charts == if includeCharts then
        GenerateChartData(invoices, customers, user, "revenue_trend", s, e)
        + GenerateChartData(invoices, customers, user, "invoice_status", s, e)
        + GenerateChartData(invoices, customers, user, "top_customers", s, e)
      else []
    ensures insights == if includeInsights then KeyInsights(data.overview.keyInsights) else []
  {
    var o := GenerateBusinessOverview(invoices, customers, user, s, e);
    data := OverviewData(o);
    charts := [];
    insights := [];
    if includeCharts {
      charts := OverviewCharts(invoices, customers, user, s, e);
    }
    if includeInsights {
      insights := KeyInsights(o.keyInsights);
    }
  }

  /**
   * `generate_report`: resolve the window, then compute the record of the
   * requested type with its charts when `include_charts` is set and its
   * insights when `include_insights` is set. The invoice and custom types
   * match no branch and leave all three empty.
   */
  method GenerateReport(invoices: seq<Invoice>, customers: seq<Customer>, user: string, req: ReportRequest, today: Date)
    returns (r: Result<Report, int>)
    requires WellFormedRequest(req) && ValidDate(today)
    ensures ResolveWindow(req, today).Err? ==> r == Err(400)
    ensures ResolveWindow(req, today).Ok? ==> r.Ok?
    ensures r.Ok? ==>
      var rep := r.value;
      rep.userId == user && rep.reportType == req.reportType && rep.period == req.period
      && (rep.startDate, rep.endDate) == ResolveWindow(req, today).value
      && (!req.includeCharts ==> rep.charts == [])
      && (!req.includeInsights ==> rep.insights == [])
      && (req.reportType in {InvoiceReport, CustomReport} ==> rep.data == NoData && rep.charts == [] && rep.insights == [])
    ensures r.Ok? && req.reportType == FinancialReport ==>
      var s, e := ToOrdinal(r.value.startDate), ToOrdinal(r.value.endDate);
      r.value.data == FinancialData(FinancialMetricsOf(invoices, user, s, e))
      && (req.includeCharts ==> r.value.charts == GenerateChartData(invoices, customers, user, "revenue_trend", s, e))
      && (req.includeInsights ==> r.value.insights == FinancialSummary(r.value.data.financial))
    ensures r.Ok? && req.reportType == SalesReport ==>
      var s, e := ToOrdinal(r.value.startDate), ToOrdinal(r.value.endDate);
      r.value.data == SalesData(SalesMetricsOf(invoices, user, s, e))
      && (req.includeCharts ==> r.value.charts == GenerateChartData(invoices, customers, user, "revenue_trend", s, e))
      && (req.includeInsights ==> r.value.insights == SalesSummary(r.value.data.sales))
    ensures r.Ok? && req.reportType == CustomerReport ==>
      var s, e := ToOrdinal(r.value.startDate), ToOrdinal(r.value.endDate);
      r.value.data == CustomerData(CustomerMetricsOf(invoices, customers, user, s, e))
      && (req.includeCharts ==> r.value.charts == GenerateChartData(invoices, customers, user, "top_customers", s, e))
      && (req.includeInsights ==> r.value.insights == CustomerSummary(r.value.data.customer))
    ensures r.Ok? && req.reportType == OverviewReport ==>
      var s, e := ToOrdinal(r.value.startDate), ToOrdinal(r.value.endDate);
      r.value.data == OverviewData(OverviewOf(invoices, customers, user, s, e))
      && (req.includeCharts ==>
            r.value.charts == GenerateChartData(invoices, customers, user, "revenue_trend", s, e)
                              + GenerateChartData(invoices, customers, user, "invoice_status", s, e)
                              + GenerateChartData(invoices, customers, user, "top_customers", s, e))
      && (req.includeInsights ==> r.value.insights == KeyInsights(r.value.data.overview.keyInsights))
  {
    var window := ResolveWindow(req, today);
    if window.Err? {
      return Err(window.error);
    }
    var (sd, ed) := window.value;
    var s, e := ToOrdinal(sd), ToOrdinal(ed);
    var data := NoData;
    var charts: seq<ChartData> := [];
    var insights: seq<ReportInsight> := [];
    match req.reportType {
      case FinancialReport =>
        data, charts, insights := FinancialReportParts(invoices, customers, user, s, e, req.includeCharts, req.includeInsights);
      case SalesReport =>
        data, charts, insights := SalesReportParts(invoices, customers, user, s, e, req.includeCharts, req.includeInsights);
      case CustomerReport =>
        data, charts, insights := CustomerReportParts(invoices, customers, user, s, e, req.includeCharts, req.includeInsights);
      case OverviewReport =>
        data, charts, insights := OverviewReportParts(invoices, customers, user, s, e, req.includeCharts, req.includeInsights);
      case InvoiceReport =>
      case CustomReport =>
    }
    r := Ok(Report(user, req.reportType, req.period, sd, ed, data, charts, insights));
  }

  // ---------------------------------------------------------------------
  // Dashboard

  datatype Dashboard = Dashboard(
    overview: BusinessOverview,
    kpiMetrics: seq<KpiMetric>,
    charts: seq<ChartData>,
    period: string,
    startDate: Date,
    endDate: Date)

  /**
   * `get_dashboard_data`: the overview, the KPIs and two charts for the
   * window `get_date_range(period)`; an unknown period falls back to the
   * last 30 days.
   */
  method GetDashboardData(invoices: seq<Invoice>, customers: seq<Customer>, user: string, period: string, today: Date)
    returns (d: Dashboard)
    requires ValidDate(today)
    ensures (d.startDate, d.endDate) == Helpers.DateRange(period, today)
    ensures d.period == period
    ensures var s, e := ToOrdinal(d.startDate), ToOrdinal(d.endDate);
      d.overview == OverviewOf(invoices, customers, user, s, e)
      && d.charts == GenerateChartData(invoices, customers, user, "revenue_trend", s, e)
                     + GenerateChartData(invoices, customers, user, "invoice_status", s, e)
    ensures |d.charts| <= 2
    ensures d.kpiMetrics == []
  {
    var range := Helpers.DateRange(period, today);
    var sd, ed := range.0, range.1;
    var s, e := ToOrdinal(sd), ToOrdinal(ed);
    var overview := GenerateBusinessOverview(invoices, customers, user, s, e);
    var kpis := GetKpiMetrics(invoices, customers, user, s, e);
    KpiMetricsAlwaysEmpty(invoices, customers, user, s, e);
    var trend := GenerateChartData(invoices, customers, user, "revenue_trend", s, e);
    var status := GenerateChartData(invoices, customers, user, "invoice_status", s, e);
    var charts := trend + status;
    d := Dashboard(overview, kpis, charts, period, sd, ed);
  }

  // ---------------------------------------------------------------------
  // Listing stored reports

  /** A stored report, as far as the listing query looks at it. */
  datatype StoredReport = StoredReport(id: string, userId: string, reportType: string, generatedAt: int)

  /** `{"user_id": u}`, plus `"report_type": t` when a non-empty type is given. */
  function ReportQuery(user: string, reportType: Option<string>): StoredReport -> bool {
    (r: StoredReport) => r.userId == user && (reportType.Some? && reportType.value != "" ==> r.reportType == reportType.value)
  }

  /** Each report keyed by its generation time, for the descending sort. */
  function ByGeneratedAt(rs: seq<StoredReport>): (r: seq<(StoredReport, real)>)
    ensures |r| == |rs|
    ensures forall i :: 0 <= i < |r| ==> r[i] == (rs[i], rs[i].generatedAt as real)
  {
    if rs == [] then [] else [(rs[0], rs[0].generatedAt as real)] + ByGeneratedAt(rs[1..])
  }

  function Reports(entries: seq<(StoredReport, real)>): (r: seq<StoredReport>)
    ensures |r| == |entries|
    ensures forall i :: 0 <= i < |r| ==> r[i] == entries[i].0
  {
    if entries == [] then [] else [entries[0].0] + Reports(entries[1..])
  }

  /** The query's reports, newest first (`sort("generated_at", -1)`). */
  function NewestFirst(stored: seq<StoredReport>, user: string, reportType: Option<string>): seq<StoredReport> {
    Reports(Folds.SortDesc(ByGeneratedAt(Folds.Filter(stored, ReportQuery(user, reportType)))))
  }

  /**
   * `get_reports`: a page number below 1 or a page size outside 1..50 is
   * refused by the query validation (422); otherwise the page of the
   * newest-first list with the pagination record of the query's count.
   */
  function GetReports(stored: seq<StoredReport>, user: string, reportType: Option<string>, page: int, pageSize: int)
    : (r: Result<(seq<StoredReport>, Helpers.Pagination), int>)
    ensures r.Err? <==> page < 1 || pageSize < 1 || pageSize > 50
    ensures r.Err? ==> r.error == 422
    ensures r.Ok? ==> r.value == Helpers.Paginate(NewestFirst(stored, user, reportType), page, pageSize)
  {
    if page < 1 || pageSize < 1 || pageSize > 50 then Err(422)
    else Ok(Helpers.Paginate(NewestFirst(stored, user, reportType), page, pageSize))
  }

  /**
   * The newest-first list holds exactly the reports the query selects, each
   * as often as the store holds it, ordered by descending generation time.
   */
  lemma NewestFirstLaws(stored: seq<StoredReport>, user: string, reportType: Option<string>)
    ensures var rs := NewestFirst(stored, user, reportType);
      var selected := Folds.Filter(stored, ReportQuery(user, reportType));
      multiset(rs) == multiset(selected)
      && (forall i, j :: 0 <= i < j < |rs| ==> rs[i].generatedAt >= rs[j].generatedAt)
  {
    var selected := Folds.Filter(stored, ReportQuery(user, reportType));
    var keyed := ByGeneratedAt(selected);
    var sorted := Folds.SortDesc(keyed);
    Folds.SortDescLaws(keyed);
    ReportsPermutation(keyed, sorted);
    assert Reports(keyed) == selected;
    var rs := Reports(sorted);
    forall i, j | 0 <= i < j < |rs| ensures rs[i].generatedAt >= rs[j].generatedAt {
      KeyedEntry(selected, sorted[i]);
      KeyedEntry(selected, sorted[j]);
    }
  }

  /** Every entry of the keyed list carries its report's own generation time. */
  lemma KeyedEntry(rs: seq<StoredReport>, x: (StoredReport, real))
    requires x in multiset(ByGeneratedAt(rs))
    ensures x.1 == x.0.generatedAt as real
  {
    var keyed := ByGeneratedAt(rs);
    assert x in keyed;
    var a :| 0 <= a < |keyed| && keyed[a] == x;
  }

  /** Reordering the entries reorders their reports the same way. */
  lemma {:induction false} ReportsPermutation(a: seq<(StoredReport, real)>, b: seq<(StoredReport, real)>)
    requires multiset(a) == multiset(b)
    ensures multiset(Reports(a)) == multiset(Reports(b))
    decreases |a|
  {
    if a == [] {
      assert |multiset(b)| == 0;
    } else {
      assert a[0] in multiset(b);
      var j :| 0 <= j < |b| && b[j] == a[0];
      var pre, post := b[..j], b[j + 1..];
      RemoveOne(a, b, j);
      ReportsPermutation(a[1..], pre + post);
      SplitReports(b, j);
      ReportsAppend(pre, post);
      assert Reports(a) == [a[0].0] + Reports(a[1..]);
    }
  }

  lemma ReportsAppend(a: seq<(StoredReport, real)>, b: seq<(StoredReport, real)>)
    ensures Reports(a + b) == Reports(a) + Reports(b)
  {
    assert forall i :: 0 <= i < |a + b| ==> Reports(a + b)[i] == (Reports(a) + Reports(b))[i];
  }

  /** Taking one entry out of the middle takes its report out of the middle. */
  lemma SplitReports(b: seq<(StoredReport, real)>, j: int)
    requires 0 <= j < |b|
    ensures multiset(Reports(b)) == multiset{b[j].0} + multiset(Reports(b[..j]) + Reports(b[j + 1..]))
  {
    var pre, post := b[..j], b[j + 1..];
    ReportsMiddle(b, j);
    MultisetMiddle(Reports(pre), b[j].0, Reports(post));
  }

  lemma ReportsMiddle(b: seq<(StoredReport, real)>, j: int)
    requires 0 <= j < |b|
    ensures Reports(b) == Reports(b[..j]) + [b[j].0] + Reports(b[j + 1..])
  {
    var r := Reports(b);
    var pre, post := Reports(b[..j]), Reports(b[j + 1..]);
    var t := pre + [b[j].0] + post;
    assert |t| == |r|;
    forall i | 0 <= i < |r| ensures r[i] == t[i] {
      if i < j {
        assert t[i] == pre[i];
      } else if i > j {
        assert t[i] == post[i - j - 1];
      }
    }
  }

  lemma MultisetMiddle<T>(x: seq<T>, y: T, z: seq<T>)
    ensures multiset(x + [y] + z) == multiset{y} + multiset(x + z)
  {
  }

  lemma RemoveOne(a: seq<(StoredReport, real)>, b: seq<(StoredReport, real)>, j: int)
    requires multiset(a) == multiset(b) && a != [] && 0 <= j < |b| && b[j] == a[0]
    ensures multiset(a[1..]) == multiset(b[..j] + b[j + 1..])
  {
    var rest := b[..j] + b[j + 1..];
    assert a == [a[0]] + a[1..];
    assert b == b[..j] + [b[j]] + b[j + 1..];
    assert multiset(a) == multiset{a[0]} + multiset(a[1..]);
    assert multiset(b) == multiset{a[0]} + multiset(rest);
    assert multiset(a[1..]) == multiset(a) - multiset{a[0]};
    assert multiset(rest) == multiset(b) - multiset{a[0]};
  }

  /** A page of a list whose entries all satisfy `p` holds only such entries. */
  lemma PageKeeps(rs: seq<StoredReport>, p: StoredReport -> bool, page: int, pageSize: int)
    requires page >= 1 && pageSize >= 1
    requires forall i :: 0 <= i < |rs| ==> p(rs[i])
    ensures forall k :: 0 <= k < |Helpers.Paginate(rs, page, pageSize).0| ==> p(Helpers.Paginate(rs, page, pageSize).0[k])
  {
  }

  /** A page of a newest-first list is newest first. */
  lemma PageSorted(rs: seq<StoredReport>, page: int, pageSize: int)
    requires page >= 1 && pageSize >= 1
    requires forall i, j :: 0 <= i < j < |rs| ==> rs[i].generatedAt >= rs[j].generatedAt
    ensures var items := Helpers.Paginate(rs, page, pageSize).0;
      forall i, j :: 0 <= i < j < |items| ==> items[i].generatedAt >= items[j].generatedAt
  {
    var items := Helpers.Paginate(rs, page, pageSize).0;
    var base := (page - 1) * pageSize;
    forall i, j | 0 <= i < j < |items| ensures items[i].generatedAt >= items[j].generatedAt {
      assert items[i] == rs[base + i] && items[j] == rs[base + j];
    }
  }

  /**
   * Every listed report matches the query, the page is newest first, and
   * the pagination record counts the query's reports.
   */
  lemma GetReportsLaws(stored: seq<StoredReport>, user: string, reportType: Option<string>, page: int, pageSize: int)
    requires 1 <= page && 1 <= pageSize <= 50
    ensures var r := GetReports(stored, user, reportType, page, pageSize);
      var selected := Folds.Filter(stored, ReportQuery(user, reportType));
      r.Ok?
      && r.value.1 == Helpers.PageInfo(|selected|, page, pageSize)
      && |r.value.0| <= pageSize
      && (forall k :: 0 <= k < |r.value.0| ==> ReportQuery(user, reportType)(r.value.0[k]))
      && (forall i, j :: 0 <= i < j < |r.value.0| ==> r.value.0[i].generatedAt >= r.value.0[j].generatedAt)
  {
    var selected := Folds.Filter(stored, ReportQuery(user, reportType));
    var rs := NewestFirst(stored, user, reportType);
    NewestFirstLaws(stored, user, reportType);
    assert |rs| == |selected| by {
      assert |multiset(rs)| == |multiset(selected)|;
    }
    Folds.FilterMembers(stored, ReportQuery(user, reportType));
    forall i | 0 <= i < |rs| ensures ReportQuery(user, reportType)(rs[i]) {
      assert rs[i] in multiset(selected);
      var a :| 0 <= a < |selected| && selected[a] == rs[i];
    }
    PageKeeps(rs, ReportQuery(user, reportType), page, pageSize);
    PageSorted(rs, page, pageSize);
  }
}
