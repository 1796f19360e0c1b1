/**
 * Proleptic Gregorian calendar arithmetic, as Python's `datetime.date` does it.
 * A civil `Date` is what `replace(day=...)` and `strftime` see; a `Day` (the
 * ordinal of `date.toordinal()`) is what `timedelta` arithmetic and date
 * comparisons see. `NextDayOrdinal` and `PlusDaysOrdinal` tie the two together.
 */
module Calendar {

  /** A day number: 0001-01-01 is day 1, as `date.toordinal()` numbers days. */
  type Day = int

  datatype Date = Date(year: int, month: int, day: int)

  predicate IsLeap(y: int) {
    y % 4 == 0 && (y % 100 != 0 || y % 400 == 0)
  }

  /** `calendar.monthrange(y, m)[1]`. */
  function DaysInMonth(y: int, m: int): (n: int)
    requires 1 <= m <= 12
    ensures 28 <= n <= 31
  {
    if m == 2 then (if IsLeap(y) then 29 else 28)
    else if m == 4 || m == 6 || m == 9 || m == 11 then 30
    else 31
  }

  function DaysInYear(y: int): int {
    if IsLeap(y) then 366 else 365
  }

  /** Days in the years before `y` (Python's `_days_before_year`). */
  function DaysBeforeYear(y: int): int {
    var p := y - 1;
    p * 365 + p / 4 - p / 100 + p / 400
  }

  /** Days in the months of year `y` before month `m` (Python's `_days_before_month`). */
  function DaysBeforeMonth(y: int, m: int): int
    requires 1 <= m <= 12
  {
    [0, 31, 59, 90, 120, 151, 181, 212, 243, 273, 304, 334][m - 1]
      + (if m > 2 && IsLeap(y) then 1 else 0)
  }

  predicate ValidDate(d: Date) {
    1 <= d.month <= 12 && 1 <= d.day <= DaysInMonth(d.year, d.month)
  }

  function ToOrdinal(d: Date): Day
    requires ValidDate(d)
  {
    DaysBeforeYear(d.year) + DaysBeforeMonth(d.year, d.month) + d.day
  }

  /** `date.weekday()`: Monday is 0 and Sunday is 6 (day 1 was a Monday). */
  function Weekday(n: Day): int {
    (n + 6) % 7
  }

  /** `d + timedelta(days=1)`. */
  function NextDay(d: Date): (r: Date)
    requires ValidDate(d)
    ensures ValidDate(r)
  {
    if d.day < DaysInMonth(d.year, d.month) then Date(d.year, d.month, d.day + 1)
    else if d.month < 12 then Date(d.year, d.month + 1, 1)
    else Date(d.year + 1, 1, 1)
  }

  /** `d - timedelta(days=1)`. */
  function PrevDay(d: Date): (r: Date)
    requires ValidDate(d)
    ensures ValidDate(r)
  {
    if d.day > 1 then Date(d.year, d.month, d.day - 1)
    else if d.month > 1 then Date(d.year, d.month - 1, DaysInMonth(d.year, d.month - 1))
    else Date(d.year - 1, 12, 31)
  }

  /** `d + timedelta(days=n)` on a civil date. */
  function PlusDays(d: Date, n: nat): (r: Date)
    requires ValidDate(d)
    ensures ValidDate(r)
    decreases n
  {
    if n == 0 then d else PlusDays(NextDay(d), n - 1)
  }

  /** `d - timedelta(days=n)` on a civil date. */
  function MinusDays(d: Date, n: nat): (r: Date)
    requires ValidDate(d)
    ensures ValidDate(r)
    decreases n
  {
    if n == 0 then d else MinusDays(PrevDay(d), n - 1)
  }

  /**
   * The month-end idiom `x = d.replace(day=28) + timedelta(days=4)`
   * followed by `x - timedelta(days=x.day)`.
   */
  function MonthEndByTrick(d: Date): Date
    requires ValidDate(d)
  {
    var probe := PlusDays(Date(d.year, d.month, 28), 4);
    MinusDays(probe, probe.day)
  }

  // ---------------------------------------------------------------------
  // Lemmas

  lemma DivStep(a: int, k: int)
    requires k > 0
    ensures (a + 1) / k - a / k == if (a + 1) % k == 0 then 1 else 0
  {
    var q, r := a / k, a % k;
    assert a == k * q + r && 0 <= r < k;
    if r == k - 1 {
      assert a + 1 == k * (q + 1) + 0;
      DivUnique(a + 1, k, q + 1, 0);
    } else {
      assert a + 1 == k * q + (r + 1);
      DivUnique(a + 1, k, q, r + 1);
    }
  }

  lemma DivUnique(a: int, k: int, q: int, r: int)
    requires k > 0 && 0 <= r < k && a == k * q + r
    ensures a / k == q && a % k == r
  {
    var q', r' := a / k, a % k;
    assert a == k * q' + r' && 0 <= r' < k;
    assert k * (q - q') == r' - r;
    if q > q' {
      MulAtLeast(k, q - q');
    } else if q < q' {
      assert k * (q' - q) == r - r';
      MulAtLeast(k, q' - q);
    }
  }

  lemma {:induction false} MulAtLeast(k: int, t: int)
    requires k > 0 && t >= 1
    ensures k * t >= k
    decreases t
  {
    if t > 1 {
      MulAtLeast(k, t - 1);
      assert k * t == k * (t - 1) + k;
    }
  }

  /** A year contributes `DaysInYear` days to the ordinal count. */
  lemma {:induction false} DaysBeforeYearStep(y: int)
    ensures DaysBeforeYear(y + 1) == DaysBeforeYear(y) + DaysInYear(y)
  {
    var p := y - 1;
    DivStep(p, 4);
    DivStep(p, 100);
    DivStep(p, 400);
    if y % 400 == 0 {
      DivUnique(y, 100, 4 * (y / 400), 0);
      DivUnique(y, 4, 100 * (y / 400), 0);
    } else if y % 100 == 0 {
      DivUnique(y, 4, 25 * (y / 100), 0);
    }
  }

  lemma DaysBeforeMonthStep(y: int, m: int)
    requires 1 <= m < 12
    ensures DaysBeforeMonth(y, m + 1) == DaysBeforeMonth(y, m) + DaysInMonth(y, m)
  {
  }

  /** `d + timedelta(days=1)` moves the ordinal forward by exactly one day. */
  lemma NextDayOrdinal(d: Date)
    requires ValidDate(d)
    ensures ToOrdinal(NextDay(d)) == ToOrdinal(d) + 1
  {
    if d.day == DaysInMonth(d.year, d.month) {
      if d.month < 12 {
        DaysBeforeMonthStep(d.year, d.month);
      } else {
        DaysBeforeYearStep(d.year);
      }
    }
  }

  lemma PrevDayNext(d: Date)
    requires ValidDate(d)
    ensures NextDay(PrevDay(d)) == d
  {
  }

  /** `d - timedelta(days=1)` moves the ordinal back by exactly one day. */
  lemma PrevDayOrdinal(d: Date)
    requires ValidDate(d)
    ensures ToOrdinal(PrevDay(d)) == ToOrdinal(d) - 1
  {
    PrevDayNext(d);
    NextDayOrdinal(PrevDay(d));
  }

  lemma {:induction false} PlusDaysOrdinal(d: Date, n: nat)
    requires ValidDate(d)
    ensures ToOrdinal(PlusDays(d, n)) == ToOrdinal(d) + n
    decreases n
  {
    if n > 0 {
      NextDayOrdinal(d);
      PlusDaysOrdinal(NextDay(d), n - 1);
    }
  }

  lemma {:induction false} MinusDaysOrdinal(d: Date, n: nat)
    requires ValidDate(d)
    ensures ToOrdinal(MinusDays(d, n)) == ToOrdinal(d) - n
    decreases n
  {
    if n > 0 {
      PrevDayOrdinal(d);
      MinusDaysOrdinal(PrevDay(d), n - 1);
    }
  }

  lemma {:induction false} PlusDaysWithinMonth(d: Date, n: nat)
    requires ValidDate(d) && d.day + n <= DaysInMonth(d.year, d.month)
    ensures PlusDays(d, n) == Date(d.year, d.month, d.day + n)
    decreases n
  {
    if n > 0 {
      PlusDaysWithinMonth(NextDay(d), n - 1);
    }
  }

  lemma {:induction false} MinusDaysWithinMonth(d: Date, n: nat)
    requires ValidDate(d) && n < d.day
    ensures MinusDays(d, n) == Date(d.year, d.month, d.day - n)
    decreases n
  {
    if n > 0 {
      MinusDaysWithinMonth(PrevDay(d), n - 1);
    }
  }

  lemma {:induction false} PlusDaysAdd(d: Date, a: nat, b: nat)
    requires ValidDate(d)
    ensures PlusDays(d, a + b) == PlusDays(PlusDays(d, a), b)
    decreases a
  {
    if a > 0 {
      PlusDaysAdd(NextDay(d), a - 1, b);
    }
  }

  lemma {:induction false} MinusDaysAdd(d: Date, a: nat, b: nat)
    requires ValidDate(d)
    ensures MinusDays(d, a + b) == MinusDays(MinusDays(d, a), b)
    decreases a
  {
    if a > 0 {
      MinusDaysAdd(PrevDay(d), a - 1, b);
    }
  }

  /**
   * The day-28-plus-4 idiom always lands on the last day of `d`'s month,
   * whatever the month's length (28, 29, 30 or 31 days).
   */
  lemma MonthEndByTrickIsLastDay(d: Date)
    requires ValidDate(d)
    ensures MonthEndByTrick(d) == Date(d.year, d.month, DaysInMonth(d.year, d.month))
  {
    var y, m := d.year, d.month;
    var len := DaysInMonth(y, m);
    var s := Date(y, m, 28);
    var last := Date(y, m, len);
    var first := NextDay(last);
    PlusDaysAdd(s, len - 28, 32 - len);
    PlusDaysWithinMonth(s, len - 28);
    assert PlusDays(last, 32 - len) == PlusDays(first, 31 - len);
    PlusDaysWithinMonth(first, 31 - len);
    var probe := Date(first.year, first.month, 32 - len);
    assert PlusDays(s, 4) == probe;
    MinusDaysAdd(probe, 31 - len, 1);
    MinusDaysWithinMonth(probe, 31 - len);
    assert MinusDays(first, 1) == PrevDay(first) == last;
  }

  /** The last day of a month is followed by the first day of the next month. */
  lemma LastDayThenFirst(y: int, m: int)
    requires 1 <= m <= 12
    ensures var last := Date(y, m, DaysInMonth(y, m));
      ValidDate(last)
      && NextDay(last) == (if m < 12 then Date(y, m + 1, 1) else Date(y + 1, 1, 1))
      && ToOrdinal(NextDay(last)) == ToOrdinal(last) + 1
  {
    NextDayOrdinal(Date(y, m, DaysInMonth(y, m)));
  }
}
