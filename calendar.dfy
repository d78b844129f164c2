/** Calendar dates as the finance engine sees them.

    A stored date is an ISO "YYYY-MM-DD" string; `new Date(s)` turns it into
    UTC midnight of that day. The engine looks at it in three ways: its
    calendar month and year (`getMonth()`, `getFullYear()`), its position on
    the time line (comparisons and millisecond differences between Date
    objects) and, in the transaction filter, the string itself (string
    comparison). `Date` keeps the three calendar fields, `DayNumber` gives
    the position on the time line in whole days, and `StringLe` the string
    order. */
module Calendar {

  /** A month as `getMonth()` returns it: 0 is January, 11 is December. */
  type Month = m: int | 0 <= m < 12

  datatype Date = Date(year: int, month: Month, day: int)

  predicate IsLeapYear(y: int) {
    y % 4 == 0 && (y % 100 != 0 || y % 400 == 0)
  }

  function YearLength(y: int): int {
    if IsLeapYear(y) then 366 else 365
  }

  function DaysInMonth(y: int, m: Month): (n: int)
    ensures 28 <= n <= 31
  {
    if m == 1 then (if IsLeapYear(y) then 29 else 28)
    else if m == 3 || m == 5 || m == 8 || m == 10 then 30
    else 31
  }

  /** A date that names an existing calendar day. */
  predicate Valid(d: Date) {
    1 <= d.day <= DaysInMonth(d.year, d.month)
  }

  /** Days of year `y` that lie before the first day of month `m` (0 <= m <= 12). */
  function DaysBeforeMonth(y: int, m: int): int
    requires 0 <= m <= 12
  {
    var common :=
      if m == 0 then 0 else if m == 1 then 31 else if m == 2 then 59
      else if m == 3 then 90 else if m == 4 then 120 else if m == 5 then 151
      else if m == 6 then 181 else if m == 7 then 212 else if m == 8 then 243
      else if m == 9 then 273 else if m == 10 then 304 else if m == 11 then 334
      else 365;
    if m >= 2 && IsLeapYear(y) then common + 1 else common
  }

  /** Day number of 1 January of year `y`, counting from 1 January of year 0. */
  function YearStart(y: int): int
    decreases if y < 0 then -y else y
  {
    if y == 0 then 0
    else if y > 0 then YearStart(y - 1) + YearLength(y - 1)
    else YearStart(y + 1) - YearLength(y)
  }

  /** Position of a date on the time line, in whole days. */
  function DayNumber(d: Date): int {
    YearStart(d.year) + DaysBeforeMonth(d.year, d.month) + d.day - 1
  }

  /** Whole days from `earlier` to `later`: `Math.floor((later - earlier) / 86400000)`
      on two UTC midnights. */
  function DaysBetween(later: Date, earlier: Date): (n: int)
    ensures n == 0 <==> DayNumber(later) == DayNumber(earlier)
    ensures n >= 0 <==> DayNumber(earlier) <= DayNumber(later)
  {
    DayNumber(later) - DayNumber(earlier)
  }

  /** Comparison of the "YYYY-MM-DD" texts of two dates (four-digit years):
      year first, then month, then day. */
  predicate StringLe(a: Date, b: Date) {
    a.year < b.year
    || (a.year == b.year && a.month < b.month)
    || (a.year == b.year && a.month == b.month && a.day <= b.day)
  }

  /** The first day of month `month` of `year`: `new Date(year, month, 1)`. */
  function MonthStart(year: int, month: Month): (d: Date)
    ensures Valid(d) && d.year == year && d.month == month
  {
    Date(year, month, 1)
  }

  /** The calendar month before (year, month), rolling January back to
      December of the previous year. */
  function PreviousMonth(year: int, month: Month): (r: (int, Month))
    ensures month == 0 ==> r == (year - 1, 11)
    ensures month != 0 ==> r == (year, month - 1)
    ensures NextMonth(r.0, r.1) == (year, month)
    ensures 12 * r.0 + r.1 == 12 * year + month - 1
  {
    if month == 0 then (year - 1, 11) else (year, month - 1)
  }

  /** The previous month ends the day before (year, month) begins. */
  lemma PreviousMonthIsAdjacent(year: int, month: Month)
    ensures var r := PreviousMonth(year, month);
      DayNumber(MonthStart(r.0, r.1)) + DaysInMonth(r.0, r.1) == DayNumber(MonthStart(year, month))
  {
    if month == 0 {
      YearStartStep(year - 1);
    } else {
      DaysBeforeNextMonth(year, month - 1);
    }
  }

  function NextMonth(year: int, month: Month): (r: (int, Month))
    ensures month == 11 ==> r == (year + 1, 0)
    ensures month != 11 ==> r == (year, month + 1)
  {
    if month == 11 then (year + 1, 0) else (year, month + 1)
  }

  // ---------------------------------------------------------------------
  // Day numbers follow the calendar.

  lemma DaysBeforeNextMonth(y: int, m: Month)
    ensures DaysBeforeMonth(y, m + 1) == DaysBeforeMonth(y, m) + DaysInMonth(y, m)
  {
  }

  /** Consecutive years are `YearLength` days apart. */
  lemma YearStartStep(y: int)
    ensures YearStart(y + 1) == YearStart(y) + YearLength(y)
  {
  }

  lemma {:induction false} YearStartGrows(y: int, z: int)
    requires y <= z
    ensures YearStart(y) + 365 * (z - y) <= YearStart(z)
    decreases z - y
  {
    if y < z {
      YearStartGrows(y, z - 1);
      YearStartStep(z - 1);
    }
  }

  /** A valid date lies inside its own year. */
  lemma DayOfYearBounds(d: Date)
    requires Valid(d)
    ensures YearStart(d.year) <= DayNumber(d) < YearStart(d.year) + YearLength(d.year)
  {
    DaysBeforeNextMonth(d.year, d.month);
    assert DaysBeforeMonth(d.year, d.month + 1) <= DaysBeforeMonth(d.year, 12);
  }

  /** Within one year, day numbers grow with (month, day). */
  lemma SameYearOrder(a: Date, b: Date)
    requires Valid(a) && Valid(b) && a.year == b.year
    ensures StringLe(a, b) <==> DayNumber(a) <= DayNumber(b)
  {
    if a.month < b.month {
      DaysBeforeNextMonth(a.year, a.month);
      assert DaysBeforeMonth(a.year, a.month + 1) <= DaysBeforeMonth(b.year, b.month);
    } else if b.month < a.month {
      DaysBeforeNextMonth(b.year, b.month);
      assert DaysBeforeMonth(b.year, b.month + 1) <= DaysBeforeMonth(a.year, a.month);
    }
  }

  /** On valid dates, comparing the ISO texts and comparing the Date objects agree. */
  lemma StringOrderIsTimeOrder(a: Date, b: Date)
    requires Valid(a) && Valid(b)
    ensures StringLe(a, b) <==> DayNumber(a) <= DayNumber(b)
  {
    if a.year == b.year {
      SameYearOrder(a, b);
    } else if a.year < b.year {
      DayOfYearBounds(a);
      DayOfYearBounds(b);
      YearStartStep(a.year);
      YearStartGrows(a.year + 1, b.year);
    } else {
      DayOfYearBounds(a);
      DayOfYearBounds(b);
      YearStartStep(b.year);
      YearStartGrows(b.year + 1, a.year);
    }
  }

  /** Within one year, the first days of the months are in calendar order. */
  lemma MonthStartOrder(y: int, m1: Month, m2: Month)
    requires m1 <= m2
    ensures DayNumber(MonthStart(y, m1)) <= DayNumber(MonthStart(y, m2))
  {
    DaysBeforeMonthGrows(y, m1, m2);
  }

  lemma {:induction false} DaysBeforeMonthGrows(y: int, m1: int, m2: int)
    requires 0 <= m1 <= m2 <= 12
    ensures DaysBeforeMonth(y, m1) <= DaysBeforeMonth(y, m2)
    decreases m2 - m1
  {
    if m1 < m2 {
      DaysBeforeMonthGrows(y, m1, m2 - 1);
      DaysBeforeNextMonth(y, m2 - 1);
    }
  }
}
