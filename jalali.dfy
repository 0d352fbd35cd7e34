/**
 * Gregorian to Jalali (Persian solar) calendar conversion, as the serverless
 * webhook computes it: a day count from a fixed epoch, reduced by 33-year and
 * 4-year cycles, then folded into a year of 366 possible day indices that are
 * split into six 31-day and six 30-day months.
 *
 * Python's `//` and `%` floor; every divisor here is a positive constant, for
 * which Dafny's Euclidean `/` and `%` give the same results on negative operands too.
 */
module Jalali {

  /** Days before the first of each Gregorian month in a common year. */
  const MonthOffsets: seq<int> := [0, 31, 59, 90, 120, 151, 181, 212, 243, 273, 304, 334]

  /** Days in the 33-year and the 4-year cycles. */
  const Cycle33: int := 12053
  const Cycle4: int := 1461

  /** The epoch shift and the raw day count: the pair (jy, days) before any cycle reduction. */
  function EpochDays(gy: int, gm: int, gd: int): (r: (int, int))
    requires 1 <= gm <= 12
    ensures r.0 == 979 || r.0 == 0
    ensures r.0 == 979 <==> gy > 1600
  {
    var (jy, y) := if gy > 1600 then (979, gy - 1600) else (0, gy - 621);
    var y2 := if gm > 2 then y + 1 else y;
    (jy, 365 * y + (y2 + 3) / 4 - (y2 + 99) / 100 + (y2 + 399) / 400 - 80 + gd + MonthOffsets[gm - 1])
  }

  /**
   * The day count advances by one from each day to the next, within a month,
   * from January into February, and from 31 December into 1 January (on
   * either side of the epoch switch after 1600).
   */
  lemma EpochDaysConsecutive(gy: int, gm: int, gd: int)
    requires 1 <= gm <= 12
    ensures EpochDays(gy, gm, gd + 1) == (EpochDays(gy, gm, gd).0, EpochDays(gy, gm, gd).1 + 1)
    ensures EpochDays(gy, 2, 1) == (EpochDays(gy, 1, 31).0, EpochDays(gy, 1, 31).1 + 1)
    ensures gy != 1600 ==> EpochDays(gy + 1, 1, 1) == (EpochDays(gy, 12, 31).0, EpochDays(gy, 12, 31).1 + 1)
  {
  }

  /** Whole 33-year cycles, then whole 4-year cycles, are moved from the day count into the year. */
  function ReduceCycles(jy: int, days: int): (r: (int, int))
    ensures 0 <= r.1 < Cycle4
    ensures days >= 0 ==> r.0 >= jy
  {
    var jy1 := jy + 33 * (days / Cycle33);
    var d1 := days % Cycle33;
    (jy1 + 4 * (d1 / Cycle4), d1 % Cycle4)
  }

  /**
   * Inside one 4-year cycle, whole 365-day years past the first are moved into
   * the year; the first year of the cycle keeps the extra day (index 365).
   */
  function FoldYears(jy: int, days: int): (r: (int, int))
    requires 0 <= days < Cycle4
    ensures 0 <= r.1 <= 365
    ensures jy <= r.0 <= jy + 3
    ensures days == 365 * (r.0 - jy) + r.1 + (if days > 365 then 1 else 0)
  {
    if days > 365 then (jy + (days - 1) / 365, (days - 1) % 365) else (jy, days)
  }

  /** The zero-based index of day `jd` of month `jm` within a Jalali year. */
  function DayOfYear(jm: int, jd: int): int {
    if jm <= 6 then 31 * (jm - 1) + jd - 1 else 186 + 30 * (jm - 7) + jd - 1
  }

  /** A month number with a day that exists in it (months 7 to 12 have 30 days here). */
  predicate ValidMonthDay(jm: int, jd: int) {
    1 <= jm <= 12 && 1 <= jd && jd <= (if jm <= 6 then 31 else 30)
  }

  /**
   * The month and day of a day index: the first 186 indices fill months 1 to 6,
   * the rest months 7 to 12; `DayOfYear` gives the index back.
   */
  function MonthAndDay(days: int): (r: (int, int))
    requires 0 <= days <= 365
    ensures ValidMonthDay(r.0, r.1)
    ensures r.0 <= 6 <==> days < 186
    ensures DayOfYear(r.0, r.1) == days
  {
    if days < 186 then (1 + days / 31, 1 + days % 31)
    else (7 + (days - 186) / 30, 1 + (days - 186) % 30)
  }

  /** `MonthAndDay` and `DayOfYear` are inverse on every valid month and day. */
  lemma MonthAndDayInverse(jm: int, jd: int)
    requires ValidMonthDay(jm, jd)
    ensures 0 <= DayOfYear(jm, jd) <= 365
    ensures MonthAndDay(DayOfYear(jm, jd)) == (jm, jd)
  {
    var d := DayOfYear(jm, jd);
    if jm <= 6 {
      assert d / 31 == jm - 1 && d % 31 == jd - 1;
    } else {
      assert (d - 186) / 30 == jm - 7 && (d - 186) % 30 == jd - 1;
    }
  }

  /** Python's `gregorian_to_jalali(gy, gm, gd)`: the triple (jy, jm, jd). */
  function GregorianToJalali(gy: int, gm: int, gd: int): (r: (int, int, int))
    requires 1 <= gm <= 12
    ensures ValidMonthDay(r.1, r.2)
  {
    var (jy0, days0) := EpochDays(gy, gm, gd);
    var (jy1, days1) := ReduceCycles(jy0, days0);
    var (jy, days) := FoldYears(jy1, days1);
    var (jm, jd) := MonthAndDay(days);
    (jy, jm, jd)
  }

  /** 20 March 2024 is Nowruz, the first day of the year 1403. */
  lemma Nowruz1403()
    ensures GregorianToJalali(2024, 3, 20) == (1403, 1, 1)
  {
    assert EpochDays(2024, 3, 20) == (979, 154863);
    assert 154863 / Cycle33 == 12 && 154863 % Cycle33 == 10227;
    assert 10227 / Cycle4 == 7 && 10227 % Cycle4 == 0;
    assert ReduceCycles(979, 154863) == (1403, 0);
    assert FoldYears(1403, 0) == (1403, 0);
    assert MonthAndDay(0) == (1, 1);
  }
}
