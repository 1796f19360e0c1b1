/**
 * The three quotients every service computes: an average that is 0 over an
 * empty population, a percentage that is 0 over an empty whole, and a
 * period-over-period growth percentage that is 100 or 0 when the previous
 * value is 0. Python's `/` is true division, so these are exact on `real`.
 */
module Ratios {

  /** `total / count if count > 0 else 0`. */
  function Average(total: real, count: int): (r: real)
    ensures count > 0 ==> r * count as real == total
    ensures count <= 0 ==> r == 0.0
  {
    if count > 0 then total / count as real else 0.0
  }

  lemma AverageTimesCount(total: real, count: int)
    requires count > 0
    ensures Average(total, count) * count as real == total
  {
  }

  /** `part / whole * 100 if whole > 0 else 0`. */
  function Percent(part: real, whole: real): (r: real)
    ensures whole > 0.0 ==> r * whole == part * 100.0
    ensures whole <= 0.0 ==> r == 0.0
    ensures 0.0 <= part <= whole ==> 0.0 <= r <= 100.0
  {
    if whole > 0.0 then part / whole * 100.0 else 0.0
  }

  /**
   * `100.0 if current > 0 else 0.0` when `previous == 0`, and
   * `(current - previous) / previous * 100` otherwise.
   */
  function GrowthPercent(current: real, previous: real): (r: real)
    ensures previous == 0.0 ==> r == (if current > 0.0 then 100.0 else 0.0)
    ensures previous != 0.0 ==> previous + previous * r / 100.0 == current
    ensures previous > 0.0 ==> (r > 0.0 <==> current > previous) && (r < 0.0 <==> current < previous)
  {
    if previous == 0.0 then (if current > 0.0 then 100.0 else 0.0)
    else (current - previous) / previous * 100.0
  }
}
