/**
 * The shared helpers of `utils/helpers.py`: phone-number check, tax
 * arithmetic, input sanitising, list pagination and the named reporting
 * periods. "Today" is a parameter.
 */
module Helpers {
  import opened Wrappers
  import opened Calendar
  import Folds

  // ---------------------------------------------------------------------
  // validate_phone

  predicate IsDigit(c: char) {
    '0' <= c <= '9'
  }

  /** `re.sub(r'\D', '', phone)`: the digits of the number, in order. */
  function PhoneDigits(phone: string): (r: string)
    ensures |r| <= |phone|
    ensures forall i :: 0 <= i < |r| ==> IsDigit(r[i])
  {
    Folds.FilterMembers(phone, IsDigit);
    Folds.Filter(phone, IsDigit)
  }

  /** `validate_phone`: between 10 and 15 digits, whatever else the string holds. */
  predicate ValidatePhone(phone: string) {
    10 <= |PhoneDigits(phone)| <= 15
  }

  /** Separators (spaces, dashes, brackets, a leading `+`) never change the verdict. */
  lemma PhoneSeparatorIgnored(a: string, c: char, b: string)
    requires !IsDigit(c)
    ensures PhoneDigits(a + [c] + b) == PhoneDigits(a) + PhoneDigits(b)
    ensures ValidatePhone(a + [c] + b) <==> ValidatePhone(a + b)
  {
    Folds.FilterAppend(a + [c], b, IsDigit);
    Folds.FilterAppend(a, [c], IsDigit);
    Folds.FilterAppend(a, b, IsDigit);
  }

  lemma {:induction false} AllDigitsKept(phone: string)
    requires forall i :: 0 <= i < |phone| ==> IsDigit(phone[i])
    ensures PhoneDigits(phone) == phone
  {
    if phone != [] {
      AllDigitsKept(phone[1..]);
      assert phone == [phone[0]] + phone[1..];
    }
  }

  /** A number written with digits only is valid exactly when it has 10 to 15 characters. */
  lemma PhoneOfDigitsOnly(phone: string)
    requires forall i :: 0 <= i < |phone| ==> IsDigit(phone[i])
    ensures ValidatePhone(phone) <==> 10 <= |phone| <= 15
  {
    AllDigitsKept(phone);
  }

  // ---------------------------------------------------------------------
  // calculate_tax, calculate_total_with_tax

  /** The default rate of both tax helpers (18% GST). */
  const DefaultTaxRate: real := 0.18

  function CalculateTax(amount: real, taxRate: real): real {
    amount * taxRate
  }

  /** `amount + calculate_tax(amount, tax_rate)`. */
  function TotalWithTax(amount: real, taxRate: real): (r: real)
    ensures r == amount * (1.0 + taxRate)
    ensures amount >= 0.0 && taxRate >= 0.0 ==> r >= amount
  {
    amount + CalculateTax(amount, taxRate)
  }

  // ---------------------------------------------------------------------
  // sanitize_string

  /** The characters `str.isspace` accepts. */
  predicate IsSpace(c: char) {
    var n := c as int;
    9 <= n <= 13 || 28 <= n <= 32 || n == 0x85 || n == 0xA0 || n == 0x1680
    || 0x2000 <= n <= 0x200A || n == 0x2028 || n == 0x2029 || n == 0x202F
    || n == 0x205F || n == 0x3000
  }

  /** How many whitespace characters `s` starts with. */
  function LeadingSpace(s: string): (n: nat)
    ensures n <= |s|
    ensures forall k :: 0 <= k < n ==> IsSpace(s[k])
    ensures n < |s| ==> !IsSpace(s[n])
  {
    if s != [] && IsSpace(s[0]) then 1 + LeadingSpace(s[1..]) else 0
  }

  /** How many whitespace characters `s` ends with. */
  function TrailingSpace(s: string): (n: nat)
    ensures n <= |s|
    ensures forall k :: |s| - n <= k < |s| ==> IsSpace(s[k])
    ensures n < |s| ==> !IsSpace(s[|s| - 1 - n])
  {
    if s != [] && IsSpace(s[|s| - 1]) then 1 + TrailingSpace(s[..|s| - 1]) else 0
  }

  /**
   * `str.strip()`: the middle of `s` between its leading and its trailing
   * whitespace; the result is empty or starts and ends with a non-space.
   */
  function Strip(s: string): (r: string)
    ensures exists i, j :: (0 <= i <= j <= |s| && r == s[i..j]
      && (forall k :: 0 <= k < i ==> IsSpace(s[k]))
      && (forall k :: j <= k < |s| ==> IsSpace(s[k])))
    ensures r != [] ==> !IsSpace(r[0]) && !IsSpace(r[|r| - 1])
  {
    StripParts(s);
    var i := LeadingSpace(s);
    var t := s[i..];
    var j := |t| - TrailingSpace(t);
    assert t[..j] == s[i..i + j];
    t[..j]
  }

  /** The stripped middle is followed only by whitespace. */
  lemma StripParts(s: string)
    ensures var i := LeadingSpace(s);
      var j := |s[i..]| - TrailingSpace(s[i..]);
      forall k :: i + j <= k < |s| ==> IsSpace(s[k])
  {
    var i := LeadingSpace(s);
    var t := s[i..];
    var j := |t| - TrailingSpace(t);
    forall k | i + j <= k < |s| ensures IsSpace(s[k]) {
      assert s[k] == t[k - i];
    }
  }

  lemma StripFixed(s: string)
    requires s == [] || (!IsSpace(s[0]) && !IsSpace(s[|s| - 1]))
    ensures Strip(s) == s
  {
    assert LeadingSpace(s) == 0;
    assert s[0..] == s;
    assert TrailingSpace(s) == 0;
  }

  /** `sanitize_string`: `None` and "" give "", anything else is stripped. */
  function Sanitize(text: Option<string>): (r: string)
    ensures text.None? || text == Some("") ==> r == ""
    ensures text.Some? ==> r == Strip(text.value)
  {
    match text
    case None => ""
    case Some(t) => if t == "" then "" else Strip(t)
  }

  /** Sanitising a sanitised string changes nothing. */
  lemma SanitizeIdempotent(text: Option<string>)
    ensures Sanitize(Some(Sanitize(text))) == Sanitize(text)
  {
    StripFixed(Sanitize(text));
  }

  // ---------------------------------------------------------------------
  // paginate_results

  datatype Pagination = Pagination(
    page: int,
    pageSize: int,
    totalItems: int,
    totalPages: int,
    hasNext: bool,
    hasPrev: bool)

  /**
   * The `pagination` block: `total_pages = (total_items + page_size - 1) //
   * page_size`, the least number of pages of `page_size` items that hold
   * every item.
   */
  function PageInfo(totalItems: nat, page: int, pageSize: int): (p: Pagination)
    requires pageSize >= 1
    ensures p.totalPages >= 0
    ensures p.totalPages * pageSize >= totalItems
    ensures totalItems == 0 ==> p.totalPages == 0
    ensures p.totalPages > 0 ==> (p.totalPages - 1) * pageSize < totalItems
    ensures p.hasNext <==> page < p.totalPages
    ensures p.hasPrev <==> page > 1
    ensures p.page == page && p.pageSize == pageSize && p.totalItems == totalItems
  {
    var totalPages := (totalItems + pageSize - 1) / pageSize;
    CeilDiv(totalItems, pageSize);
    Pagination(page, pageSize, totalItems, totalPages, page < totalPages, page > 1)
  }

  lemma CeilDiv(n: nat, k: int)
    requires k >= 1
    ensures var q := (n + k - 1) / k;
      q >= 0 && q * k >= n && (n == 0 ==> q == 0) && (q > 0 ==> (q - 1) * k < n)
  {
    var q, r := (n + k - 1) / k, (n + k - 1) % k;
    assert n + k - 1 == q * k + r && 0 <= r < k;
    if n == 0 {
      Calendar.DivUnique(k - 1, k, 0, k - 1);
    }
  }

  /** Python's `results[a:b]` for `0 <= a`: both ends clamped to the length. */
  function Slice<T>(s: seq<T>, a: nat, b: nat): (r: seq<T>)
    ensures var hi := if b <= |s| then b else |s|; |r| == if a >= hi then 0 else hi - a
    ensures forall k :: 0 <= k < |r| ==> a + k < |s| && r[k] == s[a + k]
  {
    var hi := if b <= |s| then b else |s|;
    if a >= hi then [] else s[a..hi]
  }

  /**
   * `paginate_results`: the items with index in `[(page-1)*page_size,
   * page*page_size)`, and the pagination block. The routes that call it
   * accept only `page >= 1` and `page_size >= 1`.
   */
  function Paginate<T>(results: seq<T>, page: int, pageSize: int): (r: (seq<T>, Pagination))
    requires page >= 1 && pageSize >= 1
    ensures r.1 == PageInfo(|results|, page, pageSize)
    ensures |r.0| <= pageSize
    ensures forall k :: 0 <= k < |r.0| ==>
      0 <= (page - 1) * pageSize + k < |results| && r.0[k] == results[(page - 1) * pageSize + k]
  {
    assert (page - 1) * pageSize >= 0 by {
      if page > 1 {
        Calendar.MulAtLeast(pageSize, page - 1);
      }
    }
    var start := (page - 1) * pageSize;
    var info := PageInfo(|results|, page, pageSize);
    (Slice(results, start, start + pageSize), info)
  }

  /** A page past the last is empty, and every page before the last is full. */
  lemma PageEmptyOrFull<T>(results: seq<T>, page: int, pageSize: int)
    requires page >= 1 && pageSize >= 1
    ensures var (items, info) := Paginate(results, page, pageSize);
      (page > info.totalPages ==> items == [])
      && (page < info.totalPages ==> |items| == pageSize)
  {
    var info := PageInfo(|results|, page, pageSize);
    PageBounds(info.totalPages, page, pageSize);
  }

  lemma PageBounds(totalPages: int, page: int, pageSize: int)
    requires pageSize >= 1 && totalPages >= 0
    ensures page > totalPages ==> (page - 1) * pageSize >= totalPages * pageSize
    ensures page < totalPages ==> page * pageSize <= (totalPages - 1) * pageSize
  {
    if page > totalPages {
      assert (page - 1) * pageSize == totalPages * pageSize + (page - 1 - totalPages) * pageSize;
      if page - 1 - totalPages > 0 {
        Calendar.MulAtLeast(pageSize, page - 1 - totalPages);
      }
    }
    if page < totalPages {
      assert (totalPages - 1) * pageSize == page * pageSize + (totalPages - 1 - page) * pageSize;
      if totalPages - 1 - page > 0 {
        Calendar.MulAtLeast(pageSize, totalPages - 1 - page);
      }
    }
  }

  lemma MulCancelLess(k: int, a: int, b: int)
    requires k >= 1 && a * k < b * k
    ensures a < b
  {
    assert (b - a) * k == b * k - a * k;
  }

  /** Every item is on page `i / page_size + 1`, at position `i % page_size`, and that page exists. */
  lemma ItemOnItsPage<T>(results: seq<T>, pageSize: int, i: nat)
    requires pageSize >= 1 && i < |results|
    ensures var page := i / pageSize + 1;
      page <= PageInfo(|results|, page, pageSize).totalPages
      && i % pageSize < |Paginate(results, page, pageSize).0|
      && Paginate(results, page, pageSize).0[i % pageSize] == results[i]
  {
    var q, r := i / pageSize, i % pageSize;
    var page := q + 1;
    assert i == q * pageSize + r && 0 <= r < pageSize;
    assert (page - 1) * pageSize + r == i;
    var info := PageInfo(|results|, page, pageSize);
    assert q * pageSize < info.totalPages * pageSize;
    MulCancelLess(pageSize, q, info.totalPages);
  }

  // ---------------------------------------------------------------------
  // get_date_range

  /**
   * `get_date_range(period)` on the date `today` (the time of day is not
   * modelled): the first and last day of the named period.
   */
  function DateRange(period: string, today: Date): (r: (Date, Date))
    requires ValidDate(today)
    ensures ValidDate(r.0) && ValidDate(r.1)
  {
    var y, m := today.year, today.month;
    if period == "today" then (today, today)
    else if period == "week" then
      var start := MinusDays(today, Weekday(ToOrdinal(today)));
      (start, PlusDays(start, 6))
    else if period == "month" then
      (Date(y, m, 1), MonthEndByTrick(today))
    else if period == "quarter" then
      var quarter := (m - 1) / 3 + 1;
      (Date(y, 3 * quarter - 2, 1), Date(y, 3 * quarter, DaysInMonth(y, 3 * quarter)))
    else if period == "year" then
      (Date(y, 1, 1), Date(y, 12, 31))
    else
      (MinusDays(today, 30), today)
  }

  lemma WeekStartIsMonday(n: Day)
    ensures Weekday(n - Weekday(n)) == 0
  {
    var a := n + 6;
    assert a == 7 * (a / 7) + a % 7;
    assert n - Weekday(n) + 6 == 7 * (a / 7);
  }

  /** "week": the Monday on or before today through the Sunday after it. */
  lemma WeekRange(today: Date)
    requires ValidDate(today)
    ensures var (s, e) := DateRange("week", today);
      Weekday(ToOrdinal(s)) == 0
      && ToOrdinal(e) == ToOrdinal(s) + 6
      && ToOrdinal(s) <= ToOrdinal(today) <= ToOrdinal(e)
  {
    var n := ToOrdinal(today);
    var w := Weekday(n);
    var s := MinusDays(today, w);
    assert DateRange("week", today) == (s, PlusDays(s, 6));
    MinusDaysOrdinal(today, w);
    PlusDaysOrdinal(s, 6);
    WeekStartIsMonday(n);
  }

  /**
   * "month": the 1st through the last day of today's month, so February ends
   * on the 29th in a leap year and on the 28th otherwise, and the day after
   * the end is the 1st of the next month.
   */
  lemma MonthRange(today: Date)
    requires ValidDate(today)
    ensures var (s, e) := DateRange("month", today);
      s == Date(today.year, today.month, 1)
      && e == Date(today.year, today.month, DaysInMonth(today.year, today.month))
      && ToOrdinal(e) - ToOrdinal(s) + 1 == DaysInMonth(today.year, today.month)
      && NextDay(e).day == 1
      && (today.month == 2 ==> e.day == if IsLeap(today.year) then 29 else 28)
  {
    var y, m := today.year, today.month;
    MonthEndByTrickIsLastDay(today);
    PlusDaysWithinMonth(Date(y, m, 1), DaysInMonth(y, m) - 1);
    PlusDaysOrdinal(Date(y, m, 1), DaysInMonth(y, m) - 1);
  }

  /** "quarter": from the 1st of month 1, 4, 7 or 10 to the last day of the quarter's third month. */
  lemma QuarterRange(today: Date)
    requires ValidDate(today)
    ensures var (s, e) := DateRange("quarter", today);
      s.year == e.year == today.year
      && s.day == 1 && s.month in {1, 4, 7, 10}
      && s.month <= today.month <= e.month == s.month + 2
      && e.day == DaysInMonth(e.year, e.month)
  {
  }

  /** "year": 1 January through 31 December; any other name: the 30 days before today, and today. */
  lemma YearAndDefaultRange(today: Date, period: string)
    requires ValidDate(today)
    ensures DateRange("year", today) == (Date(today.year, 1, 1), Date(today.year, 12, 31))
    ensures period !in {"today", "week", "month", "quarter", "year"} ==>
      var (s, e) := DateRange(period, today);
      e == today && ToOrdinal(s) == ToOrdinal(today) - 30
  {
    MinusDaysOrdinal(today, 30);
  }
}
