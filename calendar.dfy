/**
 * A Gregorian calendar written independently of the controllers' weekday expression: days
 * are counted from 1 January 2000, which was a Saturday, using the month lengths and the
 * leap-year rule.
 */
module Calendar {
  import opened Arith

  predicate Leap(y: int) {
    y % 4 == 0 && (y % 100 != 0 || y % 400 == 0)
  }

  function LeapDay(y: int): int {
    if Leap(y) then 1 else 0
  }

  function YearLength(y: int): int {
    365 + LeapDay(y)
  }

  /** Days of the year before the first of month `m`. */
  function DaysBeforeMonth(y: int, m: int): int
    requires 1 <= m <= 12
  {
    [0, 31, 59, 90, 120, 151, 181, 212, 243, 273, 304, 334][m - 1] + (if m > 2 then LeapDay(y) else 0)
  }

  /** Days from 1 January 2000 to 1 January of year `y`. */
  function DaysBeforeYear(y: int): int
    requires y >= 2000
    decreases y - 2000
  {
    if y == 2000 then 0 else DaysBeforeYear(y - 1) + YearLength(y - 1)
  }

  /** The number of day `d` of month `m` of year `y`, 1 January 2000 being day 0. */
  function DayNumber(y: int, m: int, d: int): int
    requires y >= 2000 && 1 <= m <= 12
  {
    DaysBeforeYear(y) + DaysBeforeMonth(y, m) + d - 1
  }

  /** Day 0 was a Saturday, so Saturdays are the multiples of 7 and Sundays follow them. */
  predicate IsSaturday(y: int, m: int, d: int)
    requires y >= 2000 && 1 <= m <= 12
  {
    DayNumber(y, m, d) % 7 == 0
  }

  predicate IsSunday(y: int, m: int, d: int)
    requires y >= 2000 && 1 <= m <= 12
  {
    DayNumber(y, m, d) % 7 == 1
  }

  /** The day before a Sunday is a Saturday. */
  lemma SaturdayBeforeSunday(y: int, m: int, d: int)
    requires y >= 2000 && 1 <= m <= 12 && IsSunday(y, m, d)
    ensures IsSaturday(y, m, d - 1)
  {
    var n := DayNumber(y, m, d);
    DivUnique(n - 1, 7, n / 7, 0);
  }

  /**
   * Counting back `j` days (at most six) from a day numbered `n`, exactly one `j` reaches
   * a Sunday: the one that is `(n % 7 + 6) % 7`.
   */
  lemma OneSundayInAWeek(n: int, j: int)
    requires 0 <= j <= 6
    ensures (n - j) % 7 == 1 <==> j == (n % 7 + 6) % 7
  {
    var q, w := n / 7, n % 7;
    if w >= 1 {
      DivUnique(w + 6, 7, 1, w - 1);
    }
    if j <= w {
      DivUnique(n - j, 7, q, w - j);
    } else {
      DivUnique(n - j, 7, q - 1, 7 + w - j);
    }
  }
}
