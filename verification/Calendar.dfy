/** The proleptic Gregorian calendar of Python's `datetime`: a search for the date of a day number
    on one side, the closed leap-year formula on the other. */
module Calendar {

  datatype Date = Date(year: int, month: int, day: int)

  predicate IsLeap(y: int) {
    y % 4 == 0 && (y % 100 != 0 || y % 400 == 0)
  }

  function YearLength(y: int): (n: int)
    ensures 365 <= n <= 366
  {
    if IsLeap(y) then 366 else 365
  }

  function MonthLength(y: int, m: int): (n: int)
    requires 1 <= m <= 12
    ensures 28 <= n <= 31
  {
    if m == 2 then (if IsLeap(y) then 29 else 28)
    else if m == 4 || m == 6 || m == 9 || m == 11 then 30
    else 31
  }

  predicate ValidDate(d: Date) {
    1 <= d.month <= 12 && 1 <= d.day <= MonthLength(d.year, d.month)
  }

  predicate Earlier(a: Date, b: Date) {
    a.year < b.year || (a.year == b.year && (a.month < b.month || (a.month == b.month && a.day < b.day)))
  }

  /** Days before 1 January of year `y`, counted from 1 January of year 1. */
  function DaysBeforeYear(y: int): int
    requires y >= 1
  {
    365 * (y - 1) + (y - 1) / 4 - (y - 1) / 100 + (y - 1) / 400
  }

  function DaysBeforeMonth(y: int, m: int): int
    requires 1 <= m <= 13
  {
    if m == 1 then 0 else DaysBeforeMonth(y, m - 1) + MonthLength(y, m - 1)
  }

  const EPOCH_ORDINAL := 719162

  /** Days from 1 January 1970 to a date, by the closed formula. */
  function DayNumber(d: Date): int
    requires ValidDate(d) && d.year >= 1
  {
    DaysBeforeYear(d.year) + DaysBeforeMonth(d.year, d.month) + (d.day - 1) - EPOCH_ORDINAL
  }

  function FindYear(n: nat, y: int): (int, nat)
    decreases n
  {
    if n < YearLength(y) then (y, n) else FindYear(n - YearLength(y), y + 1)
  }

  function FindMonth(n: nat, y: int, m: int): Date
    requires 1 <= m <= 12
    requires n < DaysBeforeMonth(y, 13) - DaysBeforeMonth(y, m)
    decreases 12 - m
  {
    if n < MonthLength(y, m) then Date(y, m, n + 1)
    else
      FindMonth(n - MonthLength(y, m), y, m + 1)
  }

  /** The date of the `n`-th day after 1 January 1970, by searching year and month. */
  function DateOfDay(n: nat): Date {
    var (y, rest) := FindYear(n, 1970);
    FindYearBound(n, 1970);
    MonthsFillYear(y);
    FindMonth(rest, y, 1)
  }

  lemma FindYearBound(n: nat, y: int)
    ensures FindYear(n, y).1 < YearLength(FindYear(n, y).0)
    ensures FindYear(n, y).0 >= y
    decreases n
  {
  }

  lemma MonthsFillYear(y: int)
    ensures DaysBeforeMonth(y, 13) == YearLength(y)
    ensures DaysBeforeMonth(y, 1) == 0
  {
    assert DaysBeforeMonth(y, 2) == 31;
    assert DaysBeforeMonth(y, 3) == 31 + MonthLength(y, 2);
    assert DaysBeforeMonth(y, 5) == DaysBeforeMonth(y, 3) + 61;
    assert DaysBeforeMonth(y, 7) == DaysBeforeMonth(y, 5) + 61;
    assert DaysBeforeMonth(y, 9) == DaysBeforeMonth(y, 7) + 62;
    assert DaysBeforeMonth(y, 11) == DaysBeforeMonth(y, 9) + 61;
    assert DaysBeforeMonth(y, 13) == DaysBeforeMonth(y, 11) + 61;
  }

  /** The days of a date as one formula: the calendar year shifted to begin in March, whose months follow 153 days in
      every five. */
  lemma DayNumberFormula(d: Date)
    requires ValidDate(d) && d.year >= 1
    ensures var y, leap := d.year - 1, if d.year % 400 == 0 || (d.year % 4 == 0 && d.year % 100 != 0) then 1 else 0;
            var before := if d.month == 1 then 0 else if d.month == 2 then 31 else 59 + leap + (153 * (d.month - 3) + 2) / 5;
            DayNumber(d) == 365 * y + y / 4 - y / 100 + y / 400 + before + d.day - 719163
  {
    MonthFormula(d.year, d.month);
  }

  lemma {:induction false} MonthFormula(y: int, m: int)
    requires 1 <= m <= 12
    ensures DaysBeforeMonth(y, m) ==
            if m == 1 then 0 else if m == 2 then 31
            else 59 + (if IsLeap(y) then 1 else 0) + (153 * (m - 3) + 2) / 5
  {
    if m > 1 {
      MonthFormula(y, m - 1);
    }
  }

  /** The closed formula grows by exactly one year length per year. */
  lemma YearStep(y: int)
    requires y >= 1
    ensures DaysBeforeYear(y + 1) == DaysBeforeYear(y) + YearLength(y)
  {
    var k := y - 1;
    assert (k + 1) / 4 == k / 4 + (if (k + 1) % 4 == 0 then 1 else 0);
    assert (k + 1) / 100 == k / 100 + (if (k + 1) % 100 == 0 then 1 else 0);
    assert (k + 1) / 400 == k / 400 + (if (k + 1) % 400 == 0 then 1 else 0);
  }

  lemma {:induction false} FindYearCounts(n: nat, y: int)
    requires y >= 1
    ensures var (z, rest) := FindYear(n, y); z >= y && DaysBeforeYear(z) + rest == DaysBeforeYear(y) + n
    decreases n
  {
    if n >= YearLength(y) {
      YearStep(y);
      FindYearCounts(n - YearLength(y), y + 1);
    }
  }

  lemma {:induction false} FindMonthCounts(n: nat, y: int, m: int)
    requires 1 <= m <= 12
    requires n < DaysBeforeMonth(y, 13) - DaysBeforeMonth(y, m)
    ensures var d := FindMonth(n, y, m);
            ValidDate(d) && d.year == y && DaysBeforeMonth(y, d.month) + d.day - 1 == DaysBeforeMonth(y, m) + n
    decreases 12 - m
  {
    if n >= MonthLength(y, m) {
      FindMonthCounts(n - MonthLength(y, m), y, m + 1);
    }
  }

  /** Searching and counting agree: the date found for a day is valid and lies exactly that many days on. */
  lemma DateOfDayCounts(n: nat)
    ensures ValidDate(DateOfDay(n)) && DateOfDay(n).year >= 1970
    ensures DayNumber(DateOfDay(n)) == n
  {
    FindYearCounts(n, 1970);
    FindYearBound(n, 1970);
    var (y, rest) := FindYear(n, 1970);
    MonthsFillYear(y);
    FindMonthCounts(rest, y, 1);
    assert DaysBeforeYear(1970) == EPOCH_ORDINAL;
  }

  lemma {:induction false} YearsMonotone(a: int, b: int)
    requires 1 <= a < b
    ensures DaysBeforeYear(a) + YearLength(a) <= DaysBeforeYear(b)
    decreases b - a
  {
    YearStep(a);
    if a + 1 < b {
      YearsMonotone(a + 1, b);
    }
  }

  lemma {:induction false} MonthsMonotone(y: int, a: int, b: int)
    requires 1 <= a < b <= 13
    ensures DaysBeforeMonth(y, a) + MonthLength(y, a) <= DaysBeforeMonth(y, b)
    decreases b - a
  {
    if a + 1 < b {
      MonthsMonotone(y, a + 1, b);
    }
  }

  lemma DayInYear(d: Date)
    requires ValidDate(d)
    ensures 0 <= DaysBeforeMonth(d.year, d.month) + d.day - 1 < YearLength(d.year)
  {
    MonthsFillYear(d.year);
    MonthsMonotone(d.year, d.month, 13);
    if d.month > 1 {
      MonthsMonotone(d.year, 1, d.month);
    }
  }

  /** Calendar order is day-number order. */
  lemma EarlierIsFewerDays(a: Date, b: Date)
    requires ValidDate(a) && ValidDate(b) && a.year >= 1 && b.year >= 1
    ensures Earlier(a, b) <==> DayNumber(a) < DayNumber(b)
  {
    if Earlier(a, b) {
      EarlierCounts(a, b);
    } else if a != b {
      assert Earlier(b, a);
      EarlierCounts(b, a);
    }
  }

  lemma EarlierCounts(a: Date, b: Date)
    requires ValidDate(a) && ValidDate(b) && a.year >= 1 && b.year >= 1 && Earlier(a, b)
    ensures DayNumber(a) < DayNumber(b)
  {
    DayInYear(a);
    DayInYear(b);
    if a.year < b.year {
      YearsMonotone(a.year, b.year);
    } else if a.month < b.month {
      MonthsMonotone(a.year, a.month, b.month);
    }
  }

  /** Every valid date from 1970 on is the date of its own day number. */
  lemma DayNumberInverse(d: Date)
    requires ValidDate(d) && d.year >= 1970
    ensures DayNumber(d) >= 0 && DateOfDay(DayNumber(d)) == d
  {
    var start := Date(1970, 1, 1);
    assert DayNumber(start) == 0;
    EarlierIsFewerDays(d, start);
    var e := DateOfDay(DayNumber(d));
    DateOfDayCounts(DayNumber(d));
    EarlierIsFewerDays(d, e);
    EarlierIsFewerDays(e, d);
  }
}
