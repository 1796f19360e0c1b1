# MSME back end: reports, invoices, CRM, AI context and validators

This project is a Dafny model of the computational core of an MSME
(small-business) back end. The back end keeps invoices and customers per
user. It computes financial, sales and customer reports over date windows,
and it derives invoice statuses and summaries, customer statistics and
growth series, and the business context that the AI assistant works from.
It also validates the request models for customers, invoices and passwords.

How the model is built:

- **Storage.** Every MongoDB `find` becomes a filter over an in-memory
  sequence of records (`Folds.Filter` with a named selection such as
  `Records.InWindow`).
- **Dictionaries.** Each dictionary the code accumulates becomes an
  association list in insertion order (`Folds.GroupSum`).
- **Ranking.** Each `sorted(..., reverse=True)[:n]` becomes the stable
  insertion sort `Folds.SortDesc`, followed by `Folds.Take`.
- **Dates.** Dates are proleptic Gregorian `Calendar.Date` values with
  Python's `toordinal` numbering. The weekday is `(ordinal + 6) % 7`, so
  Monday is 0.
- **Amounts and errors.** Amounts are `real`. Exceptions and HTTP errors
  become `Option`/`Result` values.

The modules are:

| module | file | models |
|---|---|---|
| `Wrappers` | wrappers.dfy | `Option` and `Result` |
| `Calendar` | calendar.dfy | civil dates, ordinals, `monthrange`, the day-28 month-end trick |
| `Folds` | folds.dfy | filters, sums, grouping into insertion-ordered dictionaries, stable descending sort, top-n |
| `Ratios` | ratios.dfy | the guarded average, percentage and growth formulas the code repeats |
| `Records` | records.dfy | stored invoice and customer documents and the selections the queries use |
| `Helpers` | helpers.dfy | `backend/utils/helpers.py` |
| `ReportModels`, `ReportUtils`, `ReportRoutes` | report_*.dfy | `backend/modules/reports/` |
| `InvoiceModels`, `InvoiceUtils` | invoice_*.dfy | `backend/modules/invoices/` |
| `CrmModels`, `CrmUtils` | crm_*.dfy | `backend/modules/crm/` |
| `AiUtils`, `AiRoutes` | ai_*.dfy | `backend/modules/ai_assistant/` |
| `AuthModels` | auth_models.dfy | `backend/modules/auth/models.py` |

Mutable state keeps the code's own form:

- The AI assistant's context cache is a class, `AiUtils.AiAssistant`, with
  a `map` field that `GetBusinessContext` updates in place.
- The invoice collection that `update_invoice_status` writes to is the
  class `InvoiceUtils.InvoiceStore`.
- The lists that `populate_customer_info` and `populate_customer_stats`
  enrich in place are arrays.
- Loops over records are methods with loop invariants. Each is proved equal
  to a specification function, and the properties are proved about that
  function.

Some behaviours of the code are probably unintended. The model keeps them
as written and proves them:

- The KPI builder always returns an empty list.
  - Its fourth metric has an empty `unit`, which the `KPIMetric` record
    refuses.
  - The refusal is caught, so the whole list is dropped
    (`ReportUtils.KpiMetricsAlwaysEmpty`).
- The AI assistant's "previous month" window starts on the first day of the
  month two months back, so it covers two months
  (`AiUtils.PreviousWindowIsTwoMonths`).
- Monthly customer-growth periods step back 30 days at a time from the first
  of the month, so a period can start on the 31st
  (`CrmUtils.MonthlyStartDrifts`).
- The invoice total ignores the discount.
  - `discount_amount` is declared after `total_amount`.
  - So the discount is not yet among the validated values when the total is
    computed (`InvoiceModels.DiscountIgnored`).
- `populate_customer_info` builds its lookup as a dictionary keyed by
  customer id. So when two customers share an id, the later one wins
  (`InvoiceUtils.LastCustomer`).
- The AI analytics endpoint reports a null average response time when the
  user has queries but none of them records a processing time
  (`AiRoutes.AverageTimeNull`).

## Model

| member | source | states |
|---|---|---|
| Calendar.DaysInMonth | backend/utils/helpers.py:103-107 | `calendar.monthrange`'s month length lies between 28 and 31 |
| Calendar.NextDayOrdinal | backend/utils/helpers.py:96-98 | adding one day moves the ordinal by exactly one |
| Calendar.PlusDaysOrdinal | backend/utils/helpers.py:96-98 | `+ timedelta(days=n)` moves the ordinal by n |
| Calendar.MinusDaysOrdinal | backend/utils/helpers.py:111-113 | `- timedelta(days=n)` moves the ordinal back by n |
| Calendar.MonthEndByTrickIsLastDay | backend/modules/invoices/utils.py:147-156 | the day-28, plus 4 days, minus day trick lands on the last day of the month, leap years included |
| Calendar.LastDayThenFirst | backend/utils/helpers.py:99-102 | the day after a month's last day is the first of the next month |
| Ratios.Average | backend/modules/reports/utils.py:45 | a guarded average times its count gives back the total, and is 0 without items |
| Ratios.Percent | backend/modules/reports/utils.py:46 | a guarded percentage times the whole is part × 100, is 0 for an empty whole, and lies in [0,100] for a part of the whole |
| Ratios.GrowthPercent | backend/modules/reports/utils.py:278-281 | a zero previous value gives 100 or 0; otherwise applying the rate to the previous value gives the current one, with the sign of the change |
| Folds.FilterSplit | backend/modules/invoices/utils.py:108-122 | the items that satisfy a predicate and the items that do not together make up the sequence's length |
| Folds.GroupSumLaws | backend/modules/reports/utils.py:326-333 | grouping into a dictionary gives distinct keys, each holding the sum of its entries, with the grand total preserved |
| Folds.SortDescLaws | backend/modules/reports/utils.py:336-341 | `sorted(key=value, reverse=True)` gives a descending permutation of its input |
| Folds.TopNLaws | backend/modules/reports/utils.py:336-341 | `[:n]` of the descending sort keeps exactly min(n, len) entries, all drawn from the input, and none of the left-out entries is larger |
| Folds.InsertDescStable | backend/modules/reports/utils.py:336-341 | inserting an entry puts it ahead of the entries of equal value and keeps their order |
| Folds.SortDescStable | backend/modules/reports/utils.py:336-341 | the sort is stable: the entries of each value keep their input order |
| Folds.TopNStable | backend/modules/reports/utils.py:336-341 | among entries of equal value, `[:n]` keeps the earliest ones of the input, in input order |
| Records.FindCustomer | backend/modules/reports/utils.py:143-149 | `next(c for c in customers if c.id == id)` yields the first customer with that id, and none exactly when no customer has it |
| Records.CustomerAmounts | backend/modules/reports/utils.py:134-138 | only invoices with a non-empty customer id contribute a (customer, amount) pair |
| Records.JoinTopCustomers | backend/modules/reports/utils.py:140-149 | the ranking keeps only the ids found among the customers, in ranking order, named after the customer found |
| Records.JoinedTotals | backend/modules/reports/utils.py:132-149 | each customer joined from the top of the per-customer totals carries exactly its own total |
| Helpers.PhoneDigits | backend/utils/helpers.py:27-32 | keeps only digit characters and is no longer than the input |
| Helpers.PhoneSeparatorIgnored | backend/utils/helpers.py:27-32 | a non-digit character never changes whether a phone number is valid |
| Helpers.PhoneOfDigitsOnly | backend/utils/helpers.py:27-32 | a number written only in digits is valid exactly when it has 10 to 15 of them |
| Helpers.TotalWithTax | backend/utils/helpers.py:38-44 | the total is amount × (1 + rate) and never below the amount for a non-negative amount and rate |
| Helpers.Strip | backend/utils/helpers.py:46-50 | `str.strip()` returns the middle of the input after removing whitespace from both ends, and neither end of the result is whitespace |
| Helpers.StripFixed | backend/utils/helpers.py:46-50 | text with no whitespace at either end is left unchanged |
| Helpers.Sanitize | backend/utils/helpers.py:46-50 | a missing or empty text gives "", and any other text is stripped |
| Helpers.SanitizeIdempotent | backend/utils/helpers.py:46-50 | sanitizing twice is sanitizing once |
| Helpers.PageInfo | backend/utils/helpers.py:69-86 | `total_pages` is the ceiling of items / size, `has_next` holds iff page < total_pages, and `has_prev` holds iff page > 1 |
| Helpers.Paginate | backend/utils/helpers.py:67-87 | the page is the slice starting at (page−1)·size, holds at most `page_size` items, and comes with the page information |
| Helpers.PageEmptyOrFull | backend/utils/helpers.py:71-75 | past the last page the list is empty, and before the last page it is full |
| Helpers.ItemOnItsPage | backend/utils/helpers.py:71-75 | every item appears on page i / size + 1, at position i mod size |
| Helpers.DateRange | backend/utils/helpers.py:89-116 | every named period resolves to two valid dates |
| Helpers.WeekRange | backend/utils/helpers.py:96-98 | "week" starts on the Monday of the current week, ends six days later, and contains today |
| Helpers.MonthRange | backend/utils/helpers.py:99-102 | "month" runs from the 1st to the last day of the month; February ends on the 29th exactly in leap years |
| Helpers.QuarterRange | backend/utils/helpers.py:103-107 | "quarter" starts on the 1st of month 1, 4, 7 or 10 and ends on the last day of month 3q, which contains today's month |
| Helpers.YearAndDefaultRange | backend/utils/helpers.py:108-114 | "year" is 1 January to 31 December; any other name, "custom" included, is the 30 days up to today |
| ReportModels.ParsePeriod | backend/modules/reports/models.py:19-26 | only the six period names parse, and each name parses back to its period |
| ReportModels.ParsePeriodName | backend/modules/reports/models.py:19-26 | every period's name parses back to that period |
| ReportModels.RequestWithDefaults | backend/modules/reports/models.py:35-44 | charts and insights default to included, and the dates default to absent |
| ReportModels.MakeChart | backend/modules/reports/models.py:106-114 | a chart is accepted iff it has at least one data point and non-empty type, title and axis labels, and it keeps what it was given |
| ReportModels.MakeKpi | backend/modules/reports/models.py:155-164 | a KPI is accepted iff its name, unit and description are non-empty |
| ReportUtils.PreviousWindow | backend/modules/reports/utils.py:248-253 | the previous window ends the day before the start and spans the same number of days |
| ReportUtils.GrowthRate | backend/modules/reports/utils.py:245-285 | paid revenue of the window against the previous window: 100 or 0 when the previous is 0, otherwise the percentage change |
| ReportUtils.FinancialMetricsLaws | backend/modules/reports/utils.py:33-62 | with no invoices in the window the record is the all-zero default; otherwise revenue plus outstanding is the window total, paid plus pending is at most the total, the collection rate lies in [0,100], and the profit margin is 85 |
| ReportUtils.FinancialMetricsRatios | backend/modules/reports/utils.py:45-46 | the average invoice value is revenue / paid invoices, and the collection rate is paid / total × 100 |
| ReportUtils.FinancialCounts | backend/modules/reports/utils.py:37-43 | paid and unpaid sums partition the window total, and paid and pending counts fit in the window count |
| ReportUtils.SalesTrend | backend/modules/reports/utils.py:288-319 | one entry per calendar day from start to end, in order: the sum and count of that day's paid invoices, zero-filled |
| ReportUtils.CalculateSalesTrend | backend/modules/reports/utils.py:292-315 | the loop builds exactly the gap-filled daily trend |
| ReportUtils.TrendTotals | backend/modules/reports/utils.py:292-315 | the trend's sales add up to the window's paid revenue, and its counts to the number of paid invoices |
| ReportUtils.DayName | backend/modules/reports/utils.py:326-333 | each sale is filed under one of the seven weekday names |
| ReportUtils.TopSellingPeriodsLaws | backend/modules/reports/utils.py:322-345 | at most 3 weekdays, sorted descending, each with its total, no left-out weekday above any kept one, ties kept in first-sale order, and non-empty when there are sales |
| ReportUtils.CalculateTopSellingPeriods | backend/modules/reports/utils.py:326-341 | the loop and sort compute the top-3 weekday ranking |
| ReportUtils.SalesMetricsLaws | backend/modules/reports/utils.py:69-103 | with no paid sales the default record; otherwise the count, average, total (equal to the trend's sum), a trend of end−start+1 days, 1 to 3 periods, and recurring revenue of 0.6 × total |
| ReportUtils.CustomerMetricsLaws | backend/modules/reports/utils.py:110-184 | total customers is all-time, active customers are the distinct non-empty ids in the window, and the top customers are at most 5, descending and all known; the average value is lifetime paid revenue / customers |
| ReportUtils.TopCustomerValues | backend/modules/reports/utils.py:132-149 | each top customer's value is the user's lifetime paid revenue from that customer |
| ReportUtils.CustomerValuesTotal | backend/modules/reports/utils.py:134-152 | grouping by customer preserves the total paid revenue the average divides |
| ReportUtils.GetCustomerMetrics | backend/modules/reports/utils.py:110-184 | the loops compute exactly the customer metrics record |
| ReportUtils.OverviewInsights | backend/modules/reports/utils.py:196-209 | the appends produce exactly the insight sequence of the rules, in rule order |
| ReportUtils.InsightsOf | backend/modules/reports/utils.py:196-209 | at most one insight per rule, in rule order; growth >10 and < −5 exclude each other, as do collection >80 and <60; new customers > 0 adds one |
| ReportUtils.OverviewRecommendations | backend/modules/reports/utils.py:211-221 | the appends produce exactly the recommendation sequence of the rules, in rule order |
| ReportUtils.RecommendationsOf | backend/modules/reports/utils.py:211-221 | three independent recommendations, in rule order: overdue invoices, a positive average invoice value, more than 5 customers |
| ReportUtils.OverviewIndicators | backend/modules/reports/utils.py:223-229 | exactly the four indicators, each "good" above its threshold (growth > 0, new > 0, collection > 70, average > 1000) and otherwise "needs_attention", "stable", "needs_attention" and "average" respectively |
| ReportUtils.GenerateBusinessOverview | backend/modules/reports/utils.py:187-238 | the overview is the three metric records of the window plus exactly the insights, recommendations and indicators the rules derive from them |
| ReportUtils.SumOfOnes | backend/modules/reports/utils.py:366-394 | counting one per invoice counts the invoices |
| ReportUtils.AsList | backend/modules/reports/utils.py:348-414 | a refused chart becomes an empty list, an accepted one a singleton |
| ReportUtils.GenerateChartData | backend/modules/reports/utils.py:348-414 | at most one chart comes back |
| ReportUtils.ChartDataLaws | backend/modules/reports/utils.py:348-414 | an unknown type gives []; the trend chart exists iff the window has a day and plots the daily trend; the status chart exists iff the window has an invoice and has one row per distinct label holding the number of window invoices with that label; the customer chart exists iff there is a top customer and plots the top customers |
| ReportUtils.StatusCountsLaws | backend/modules/reports/utils.py:366-394 | status counts are keyed by exactly the payment-status labels of the window (a missing one is "unknown"), once each; each counts the window invoices with its label, and they sum to the window size |
| ReportUtils.OnesPerLabel | backend/modules/reports/utils.py:376-379 | the ones counted for a label add up to the number of invoices with that label |
| ReportUtils.OnesLabels | backend/modules/reports/utils.py:376-379 | the labels counted are exactly the labels of the invoices |
| ReportUtils.AllOrNothing | backend/modules/reports/utils.py:423-470 | one refused KPI record turns the whole list into [] |
| ReportUtils.KpiCandidatesLaws | backend/modules/reports/utils.py:423-460 | four KPIs in fixed order with targets revenue × 1.2, 85, average × 1.15 and their `is_good` thresholds; the fourth is refused for its empty unit |
| ReportUtils.KpiMetricsAlwaysEmpty | backend/modules/reports/utils.py:417-470 | the KPI list is always empty, as written |
| ReportRoutes.ResolveWindow | backend/modules/reports/routes.py:28-39 | a custom period without both dates is a 400; a custom one with both uses them verbatim; other periods use the named date range |
| ReportRoutes.KeyInsights | backend/modules/reports/routes.py:97-98 | one report insight per overview insight, in order |
| ReportRoutes.FinancialReportParts | backend/modules/reports/routes.py:46-58 | financial data, the revenue-trend chart when charts are asked for, and when insights are, exactly the lines total revenue, collection rate and growth rate with the metric values |
| ReportRoutes.SalesReportParts | backend/modules/reports/routes.py:60-72 | sales data, the revenue-trend chart when asked, and when asked exactly the lines total sales, average sale value and sales count with the metric values |
| ReportRoutes.CustomerReportParts | backend/modules/reports/routes.py:74-86 | customer data, the top-customers chart when asked, and when asked exactly the lines total customers, new customers and average customer value with the metric values |
| ReportRoutes.OverviewCharts | backend/modules/reports/routes.py:92-95 | revenue trend, invoice status and top customers, in that order, at most three |
| ReportRoutes.OverviewReportParts | backend/modules/reports/routes.py:88-98 | the data is the whole overview of the window, the three charts come when asked, and the insights are the overview's key insights when asked |
| ReportRoutes.GenerateReport | backend/modules/reports/routes.py:21-115 | a 400 exactly when the window cannot be resolved; otherwise a report whose data is the metric record (or whole overview) of the requested type, with that type's charts and its exact summary lines (or the overview's key insights); invoice or custom reports are empty |
| ReportRoutes.GetDashboardData | backend/modules/reports/routes.py:137-168 | the dashboard uses the named range, shows the whole overview of that range, then the revenue-trend and invoice-status charts, and an empty KPI list |
| ReportRoutes.GetReports | backend/modules/reports/routes.py:183-212 | an out-of-range page or size is a 422; otherwise the page of the user's reports, newest first |
| ReportRoutes.NewestFirstLaws | backend/modules/reports/routes.py:192-200 | the listing is a permutation of the selected reports ordered by descending generation time |
| ReportRoutes.GetReportsLaws | backend/modules/reports/routes.py:183-212 | a valid page has at most `page_size` reports, all of the user (and type), newest first, with the page information of the selection |
| InvoiceModels.ItemErrors | backend/modules/invoices/models.py:25-46 | an item is refused iff a length bound, quantity > 0, unit price ≥ 0, tax rate in [0,1] or another non-negative amount fails |
| InvoiceModels.ValidateItem | backend/modules/invoices/models.py:36-46 | a valid item's total price is quantity × unit price, and its tax is total × rate, with a default rate of 0.18 |
| InvoiceModels.ItemAmountsNonNegative | backend/modules/invoices/models.py:30-46 | a valid item's total is non-negative and its tax lies between 0 and the total |
| InvoiceModels.ItemSuppliedAmountsIgnored | backend/modules/invoices/models.py:36-46 | the supplied total price and tax amount do not change the item |
| InvoiceModels.ValidateItems | backend/modules/invoices/models.py:56 | the items are accepted iff each one is, and each keeps its position |
| InvoiceModels.ValidateInvoice | backend/modules/invoices/models.py:48-90 | a valid invoice keeps the customer id, due date and discount as given, has an issue date defaulting to today and a due date not before it, at least one item, subtotal and tax equal to the items' sums, and total = subtotal + tax |
| InvoiceModels.DueDateRule | backend/modules/invoices/models.py:67-71 | a due date before the issue date is refused, and any other passes this rule |
| InvoiceModels.ItemsRequired | backend/modules/invoices/models.py:56 | an invoice without items is refused |
| InvoiceModels.DiscountIgnored | backend/modules/invoices/models.py:63-64 | the discount does not change the total, as written |
| InvoiceModels.TotalOfItems | backend/modules/invoices/models.py:73-90 | subtotal plus tax is the sum of each item's price × (1 + rate) |
| InvoiceModels.ValidateAmountRange | backend/modules/invoices/models.py:126-141 | the range is accepted iff both bounds are non-negative and the maximum is not below the minimum |
| InvoiceModels.NegativeMinimumSkipsRange | backend/modules/invoices/models.py:136-141 | a refused minimum is absent from the values, so the range check is skipped |
| InvoiceUtils.NewStatus | backend/modules/invoices/utils.py:36-53 | paid forces "paid"; unpaid past due becomes "overdue"; unpaid not past due becomes "sent" for a pending draft and keeps its status otherwise; no due date is the missing-field case |
| InvoiceUtils.NewStatusIdempotent | backend/modules/invoices/utils.py:36-53 | applying the decision to its own result changes nothing |
| InvoiceUtils.OverdueStaysOverdue | backend/modules/invoices/utils.py:41-47 | an unpaid invoice that is overdue stays overdue on later days |
| InvoiceUtils.FindInvoice | backend/modules/invoices/utils.py:19-25 | `find_one` finds the first invoice with the id and owner, and finds none exactly when there is none |
| InvoiceUtils.InvoiceStore.constructor | backend/modules/invoices/utils.py:16-27 | the store starts with the given invoices |
| InvoiceUtils.InvoiceStore.UpdateInvoiceStatus | backend/modules/invoices/utils.py:16-57 | false for a missing invoice or one without a due date (the date comparison raises); otherwise true, and the store changes only in that invoice's status, and only when the decision changed it |
| InvoiceUtils.GetOverdueInvoices | backend/modules/invoices/utils.py:60-76 | the listing holds exactly the user's invoices that are unpaid and due before today |
| InvoiceUtils.OverdueListingAgreesWithStatus | backend/modules/invoices/utils.py:60-76 | every listed invoice is the user's and would be set to overdue, and every unpaid one past due is listed |
| InvoiceUtils.PeriodDates | backend/modules/invoices/utils.py:137-165 | every period resolves to two valid dates |
| InvoiceUtils.PeriodDatesAgree | backend/modules/invoices/utils.py:137-165 | the invoice module's period dates equal the shared helper's date range |
| InvoiceUtils.CalculateInvoiceSummary | backend/modules/invoices/utils.py:79-134 | the loop computes the summary of the selected invoices |
| InvoiceUtils.SummaryPartition | backend/modules/invoices/utils.py:108-128 | each invoice is in exactly one of paid, overdue or pending, so their amounts add up to the total; paid + overdue ≤ total, and draft + sent ≤ total |
| InvoiceUtils.LastCustomer | backend/modules/invoices/utils.py:180-183 | the dictionary lookup yields the last customer in the list with the id, and none exactly when no customer has it |
| InvoiceUtils.Enriched | backend/modules/invoices/utils.py:185-194 | enrichment changes only the four customer fields |
| InvoiceUtils.EnrichedLaws | backend/modules/invoices/utils.py:185-194 | enrichment is idempotent, copies the found customer's name, email, phone and address (a missing one as ""), and leaves an invoice without a matching customer unchanged |
| InvoiceUtils.PopulateCustomerInfo | backend/modules/invoices/utils.py:168-196 | every invoice in the list is enriched in place, keeping length and order |
| InvoiceUtils.GetInvoiceStats | backend/modules/invoices/utils.py:199-252 | an empty window gives zeros echoing the period; otherwise the average is over all amounts, the payment rate lies in [0,100], and the top customers are at most 5, descending, with non-empty ids |
| CrmModels.CustomerErrors | backend/modules/crm/models.py:31-71 | a customer is refused iff a length bound, a non-negative amount, or the phone, GSTIN or PAN rule fails |
| CrmModels.ValidateCustomer | backend/modules/crm/models.py:31-73 | errors exactly when a field rule fails; a valid customer is the record of its fields as given, with type and status defaulting to individual and active |
| CrmModels.FormatRules | backend/modules/crm/models.py:55-71 | a non-empty GSTIN has exactly 15 characters, a PAN 10, and a phone at most 15 characters with 10 to 15 digits |
| CrmModels.EmptyValuesSkipChecks | backend/modules/crm/models.py:57-69 | an empty phone, GSTIN or PAN skips its check |
| CrmModels.DigitPhoneRule | backend/modules/crm/models.py:35-59 | an all-digit phone is accepted iff it has 10 to 15 digits |
| CrmModels.LongPhoneRefused | backend/modules/crm/models.py:35 | a phone longer than 15 characters is refused, whatever its digits |
| CrmModels.CustomerDefaults | backend/modules/crm/models.py:42-43 | with type and status left out, a valid customer is an active individual |
| CrmUtils.LatestCreated | backend/modules/crm/utils.py:49-54 | the last invoice date is the greatest creation date among the customer's invoices |
| CrmUtils.CalculateCustomerStats | backend/modules/crm/utils.py:16-60 | no invoices give zeros and no date; otherwise the revenue is over all invoices, outstanding is over the unpaid ones, and the average is total / count |
| CrmUtils.CustomerStatsBounds | backend/modules/crm/utils.py:34-54 | paid and outstanding amounts both lie between 0 and the total revenue |
| CrmUtils.StatusBuckets | backend/modules/crm/utils.py:80-88 | active (a missing status included), inactive and potential partition the customers who are not blocked |
| CrmUtils.GetCustomerSummary | backend/modules/crm/utils.py:63-127 | the status counts sum to at most the total; revenue fields stay 0 without paid invoices; top customers are at most 5, descending and found |
| CrmUtils.CountStatuses | backend/modules/crm/utils.py:80-88 | the loop counts each status bucket, and together they stay within the total |
| CrmUtils.TopPayingCustomers | backend/modules/crm/utils.py:96-121 | at most 5 found customers, by descending paid revenue |
| CrmUtils.WithStats | backend/modules/crm/utils.py:150-166 | only the three statistics fields change: count, total and unpaid total |
| CrmUtils.GroupByCustomer | backend/modules/crm/utils.py:140-147 | each customer id maps to exactly that customer's invoices, in order |
| CrmUtils.PopulateCustomerStats | backend/modules/crm/utils.py:130-171 | each customer in the list is given the statistics of their own invoices in place, with no-invoice customers getting zeros |
| CrmUtils.PopulatedStatsAgree | backend/modules/crm/utils.py:130-171 | the in-place statistics agree with `calculate_customer_stats` |
| CrmUtils.PeriodAt | backend/modules/crm/utils.py:257-278 | every growth period has valid dates |
| CrmUtils.GetCustomerGrowthData | backend/modules/crm/utils.py:251-296 | exactly 12 periods, each with the count of customers created in it |
| CrmUtils.WeeklyPeriods | backend/modules/crm/utils.py:268-278 | weekly periods start on the Monday i weeks back and end 6 days later |
| CrmUtils.MonthlyPeriods | backend/modules/crm/utils.py:257-267 | a monthly period starts 30·i days before the current month's 1st and ends on the last day of its own month |
| CrmUtils.MonthlyStartDrifts | backend/modules/crm/utils.py:259-267 | a monthly period need not start on a 1st: from 15 March 2024 the second period is 31 January |
| AiUtils.PreviousMonthStart | backend/modules/ai_assistant/utils.py:158-168 | the previous-window start is a valid date |
| AiUtils.PreviousWindowIsTwoMonths | backend/modules/ai_assistant/utils.py:167-171 | the previous window starts on the 1st of the month two months back |
| AiUtils.RevenueGrowthLaws | backend/modules/ai_assistant/utils.py:154-185 | paid revenue since the month start against the previous window: 100 or 0 when the previous is 0, otherwise the percentage change |
| AiUtils.CustomerGrowthBounded | backend/modules/ai_assistant/utils.py:127-152 | customer growth is never below −100 % |
| AiUtils.ContextLaws | backend/modules/ai_assistant/utils.py:43-76 | the revenue is the paid sum, the average is revenue / all invoices, the payment rate lies in [0,100], and the top customers are at most 5 known ones by descending paid revenue |
| AiUtils.ContextTopCustomerValues | backend/modules/ai_assistant/utils.py:49-66 | each top customer of the context carries the user's paid revenue from that customer |
| AiUtils.CacheKeyInjective | backend/modules/ai_assistant/utils.py:31 | distinct users have distinct cache keys |
| AiUtils.AiAssistant.constructor | backend/modules/ai_assistant/utils.py:22-25 | the cache starts empty |
| AiUtils.AiAssistant.GetBusinessContext | backend/modules/ai_assistant/utils.py:27-99 | a fresh entry younger than 300 s is served unchanged; on a miss the computed context is cached with the current time; on a failed read the empty context is returned and nothing is cached |
| AiUtils.BuildContext | backend/modules/ai_assistant/utils.py:43-87 | the loops compute exactly the context aggregates |
| AiUtils.StoredContextIsServed | backend/modules/ai_assistant/utils.py:34-36 | a stored context is served for the next 300 s, and storing it leaves other users' entries alone |
| AiUtils.GenerateBusinessInsights | backend/modules/ai_assistant/utils.py:314-365 | the appends produce exactly the insight sequence of the rules, in rule order |
| AiUtils.InsightsFor | backend/modules/ai_assistant/utils.py:314-365 | at most one insight per rule, in rule order; the revenue rules need revenue > 0 and >20 and < −10 exclude each other; the overdue rule is overdue > 10 % of revenue; customer growth > 15 |
| AiUtils.OverduePercentageRule | backend/modules/ai_assistant/utils.py:340-345 | the overdue insight fires iff overdue / revenue × 100 > 10, and never when revenue is 0 |
| AiUtils.GenerateRecommendations | backend/modules/ai_assistant/utils.py:367-427 | the appends produce exactly the recommendation sequence of the rules, in rule order |
| AiUtils.RecommendationsFor | backend/modules/ai_assistant/utils.py:367-427 | three independent recommendations, in rule order: overdue > 0 with 0.7 × overdue to recover, customers > 5, and invoices > 10 with a positive average |
| AiUtils.EmptyContextIsQuiet | backend/modules/ai_assistant/utils.py:314-427 | the empty context reads 0 for every metric the rules consult |
| AiRoutes.Lower | backend/modules/ai_assistant/routes.py:301 | `lower()` keeps the length and lower-cases each character |
| AiRoutes.LowerIdempotent | backend/modules/ai_assistant/routes.py:301 | lower-casing twice is lower-casing once |
| AiRoutes.ContainsOccurs | backend/modules/ai_assistant/routes.py:303 | `keyword in query` holds iff the keyword occurs at some position |
| AiRoutes.ClassifyQuery | backend/modules/ai_assistant/routes.py:289-305 | the type of the first listed keyword found in the lower-cased query, always one of four types, and business insights when none is found |
| AiRoutes.FirstMatchIsListed | backend/modules/ai_assistant/routes.py:300-305 | the result is the type of the keyword that occurs with no earlier keyword occurring, or business insights when nothing matches |
| AiRoutes.TopCustomersWins | backend/modules/ai_assistant/routes.py:289-305 | a query mentioning "top customers" is a customer query, whatever else it mentions |
| AiRoutes.ClassifierIgnoresCase | backend/modules/ai_assistant/routes.py:301-303 | a query and its lower-cased form get the same type |
| AiRoutes.AverageTimeNull | backend/modules/ai_assistant/routes.py:250-259 | the average response time is null iff none of the user's responses has a processing time |
| AiRoutes.HelpfulAmongQueries | backend/modules/ai_assistant/routes.py:232-239 | helpful queries are at most all queries |
| AiRoutes.SatisfactionRate | backend/modules/ai_assistant/routes.py:264 | helpful / total × 100, lying in [0,100], and 0 without queries |
| AiRoutes.GetAiAnalytics | backend/modules/ai_assistant/routes.py:227-279 | the counts are the user's queries and helpful queries, the rate is their percentage, and the average time stays 0 without queries |
| AuthModels.PasswordProblem | backend/modules/auth/models.py:28-38 | a password is accepted iff it has 8 to 100 characters with an upper-case letter, a lower-case letter and a digit; otherwise the first failing check is reported |
| AuthModels.ConfirmProblem | backend/modules/auth/models.py:19-26 | a confirmation is refused for its length, or for a mismatch only when the password was accepted |
| AuthModels.UserCreateErrors | backend/modules/auth/models.py:9-38 | a sign-up is refused iff a name or field bound fails, the password is weak, or the confirmation differs |
| AuthModels.ValidateUserCreate | backend/modules/auth/models.py:9-38 | a valid sign-up keeps the strong password and is active by default |
| AuthModels.WeakPasswordHidesMismatch | backend/modules/auth/models.py:22-26 | with a weak password, the password is reported and the confirmation is never a mismatch |
| AuthModels.MismatchReported | backend/modules/auth/models.py:22-26 | a strong password with a different confirmation is reported as a mismatch |
| AuthModels.PasswordChangeErrors | backend/modules/auth/models.py:61-83 | a change is refused iff the current password is empty, the new one is weak, or the confirmation differs |
| AuthModels.ResetPasswordErrors | backend/modules/auth/models.py:100-110 | a reset is refused iff the new password has a bad length or the confirmation differs; there is no complexity rule |
| AuthModels.ChangeAndSignUpAgree | backend/modules/auth/models.py:28-38 | sign-up and password change apply the same rule to the new password |
| AuthModels.ResetIsLaxer | backend/modules/auth/models.py:100-110 | reset accepts every strong password, and also "password", which is not strong |
| AuthModels.MakeToken | backend/modules/auth/models.py:85-90 | the token type defaults to "bearer" and the lifetime to 1800 s |

## Left out

- MongoDB access. Queries, inserts and updates are filters and
  reassignments over in-memory sequences. Indexes, projections, `limit`,
  `to_list` caps, and what a concurrent writer could change between two
  reads are not modelled.
- Time of day.
  - Windows are whole days, inclusive at both ends.
  - The hour and minute parts of `get_date_range`, and of the `datetime`
    comparisons in the invoice and AI code, are not modelled.
  - "Today" and the cache clock are parameters.
- Floating point. Amounts are exact reals, so IEEE rounding and `round(...)`
  in displayed values are not modelled.
- Character classes are ASCII.
  - Upper, lower and digit checks and `lower()` cover ASCII only.
  - Python's Unicode case mapping and Unicode digits are not modelled.
- Free-form text is reduced to a tag with its numbers: insight messages,
  descriptions, formatted currency and chart colours. E-mail syntax
  (`EmailStr`), uuids and invoice numbers are taken as given.
- The Gemini call, `process_query` and `_generate_prompt`
  (backend/modules/ai_assistant/utils.py:187-312), because the model's
  answer is opaque.
- The other AI endpoints, which are storage and HTTP plumbing: query
  processing, feedback and history (backend/modules/ai_assistant/routes.py:20-225).
- The query-type distribution in `get_ai_analytics`, because it is a
  database aggregation with no rule of its own.
- CRM interactions, the last-interaction update, search and follow-ups
  (backend/modules/crm/utils.py:174-249). They are storage queries without
  computation.
- `customer_segments` of the dashboard, `monthly_trends` of the invoice
  stats (always empty as written), and the `updated_at` timestamps that
  updates write.
- Stored documents conflate a missing field with a null one. For example,
  a missing and a null `payment_status` both read as "unknown".
- The `CustomerUpdate`, `UserUpdate`, `UserLogin`, `InvoiceUpdate` and
  filter models other than the amount range, because they only declare
  optional fields.
- The `discount_percentage` bounds of `InvoiceBase`. The discount plays no
  part in the total as written.
- Calendar dates allow any year. Python's `date` is limited to years 1 to
  9999 and raises outside them; the month-end and window arithmetic here
  never fails at those edges.
- The `ge=0` bounds on a supplied `subtotal`, `tax_amount` and
  `total_amount` of `InvoiceBase` (backend/modules/invoices/models.py:61-63).
  The validators recompute all three from the items, so the input record
  does not carry them, and a negative supplied value is not refused.
- The enumeration checks on `status` and `payment_status`. Both are
  datatypes here, so a string outside the enumeration cannot be written
  and its rejection is not modelled.
- ReportUtils.GenerateChartData: its own contract bounds only the length.
  The per-type behaviour is stated by `ReportUtils.ChartDataLaws`.
- Authentication, JWT handling, password hashing, the route handlers'
  permission checks and app wiring, because they lie outside the
  computational core.
