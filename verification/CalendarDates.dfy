/** Dates of the proleptic Gregorian calendar: adding days, month lengths, and the day
    number that partners the date. */
module CalendarDates {

  datatype Date = Date(year: int, month: int, day: int)

  predicate Leap(year: int) {
    year % 4 == 0 && (year % 100 != 0 || year % 400 == 0)
  }

  function MonthLength(year: int, month: int): (n: int)
    ensures 28 <= n <= 31
  {
    if month == 2 then (if Leap(year) then 29 else 28)
    else if month in {4, 6, 9, 11} then 30
    else 31
  }

  predicate ValidDate(d: Date) {
    1 <= d.month <= 12 && 1 <= d.day <= MonthLength(d.year, d.month)
  }

  function NextDay(d: Date): Date {
    if d.day < MonthLength(d.year, d.month) then d.(day := d.day + 1)
    else if d.month < 12 then Date(d.year, d.month + 1, 1)
    else Date(d.year + 1, 1, 1)
  }

  function AddDays(d: Date, n: nat): Date {
    if n == 0 then d else NextDay(AddDays(d, n - 1))
  }

  /** The first month after a date's, and its year. */
  function NextMonth(d: Date): (int, int) {
    if d.month == 12 then (d.year + 1, 1) else (d.year, d.month + 1)
  }

  /** The same day of the next month, or its last day if it is shorter. */
  function InNextMonth(d: Date, day: int): Date {
    var (year, month) := NextMonth(d);
    var length := MonthLength(year, month);
    Date(year, month, if day < length then day else length)
  }

  predicate Before(a: Date, b: Date) {
    a.year < b.year || (a.year == b.year && (a.month < b.month || (a.month == b.month && a.day < b.day)))
  }

  // ------------------------------------------------------------------ day numbers

  function DaysBeforeYear(year: int): int {
    var y := year - 1;
    365 * y + y / 4 - y / 100 + y / 400
  }

  function DaysBeforeMonth(year: int, month: nat): (n: int)
    ensures n >= 0
  {
    if month <= 1 then 0 else DaysBeforeMonth(year, month - 1) + MonthLength(year, month - 1)
  }

  /** Days since the start of year 1. */
  function Ordinal(d: Date): int
    requires d.month >= 0
  {
    DaysBeforeYear(d.year) + DaysBeforeMonth(d.year, d.month) + d.day
  }

  lemma MultipleSteps(y: int, m: int)
    requires m > 1
    ensures (y + 1) / m == y / m + if (y + 1) % m == 0 then 1 else 0
  {
    var q, r := (y + 1) / m, (y + 1) % m;
    assert y + 1 == m * q + r;
    if r == 0 {
      assert y == m * (q - 1) + (m - 1);
      Unique(y, m, q - 1, m - 1);
    } else {
      assert y == m * q + (r - 1);
      Unique(y, m, q, r - 1);
    }
  }

  lemma Unique(y: int, m: int, q: int, r: int)
    requires m > 1 && 0 <= r < m && y == m * q + r
    ensures y / m == q && y % m == r
  {
    var d := y / m - q;
    assert y == m * (y / m) + y % m;
    assert m * d == r - y % m;
    Multiples(m, d);
  }

  lemma Multiples(m: int, d: int)
    requires m > 1
    ensures (d >= 1 ==> m * d >= m) && (d <= -1 ==> m * d <= -m)
  {
  }

  lemma YearLength(year: int)
    ensures DaysBeforeYear(year + 1) == DaysBeforeYear(year) + 365 + if Leap(year) then 1 else 0
  {
    MultipleSteps(year - 1, 4);
    MultipleSteps(year - 1, 100);
    MultipleSteps(year - 1, 400);
  }

  lemma MonthsAddUp(year: int)
    ensures DaysBeforeMonth(year, 12) + MonthLength(year, 12) == 365 + if Leap(year) then 1 else 0
  {
    var february := MonthLength(year, 2);
    assert DaysBeforeMonth(year, 2) == 31;
    assert DaysBeforeMonth(year, 3) == 31 + february;
    assert DaysBeforeMonth(year, 5) == 92 + february;
    assert DaysBeforeMonth(year, 7) == 153 + february;
    assert DaysBeforeMonth(year, 9) == 215 + february;
    assert DaysBeforeMonth(year, 11) == 276 + february;
  }

  /** The next day has the next number. */
  lemma NextDayIsNext(d: Date)
    requires ValidDate(d)
    ensures ValidDate(NextDay(d)) && Ordinal(NextDay(d)) == Ordinal(d) + 1
  {
    if d.day == MonthLength(d.year, d.month) && d.month == 12 {
      YearLength(d.year);
      MonthsAddUp(d.year);
    }
  }

  /** Adding days gives a date that many day numbers later. */
  lemma {:induction false} AddDaysAdds(d: Date, n: nat)
    requires ValidDate(d)
    ensures ValidDate(AddDays(d, n)) && Ordinal(AddDays(d, n)) == Ordinal(d) + n
    decreases n
  {
    if n > 0 {
      AddDaysAdds(d, n - 1);
      NextDayIsNext(AddDays(d, n - 1));
    }
  }

  lemma {:induction false} MonthsInOrder(year: int, a: nat, b: nat)
    requires 1 <= a < b
    ensures DaysBeforeMonth(year, a) + MonthLength(year, a) <= DaysBeforeMonth(year, b)
    decreases b
  {
    if a + 1 < b { MonthsInOrder(year, a, b - 1); }
  }

  lemma {:induction false} YearsInOrder(a: int, b: int)
    requires a < b
    ensures DaysBeforeYear(a) + 365 + (if Leap(a) then 1 else 0) <= DaysBeforeYear(b)
    decreases b - a
  {
    YearLength(b - 1);
    if a + 1 < b { YearsInOrder(a, b - 1); }
  }

  lemma InsideYear(d: Date)
    requires ValidDate(d)
    ensures 0 < DaysBeforeMonth(d.year, d.month) + d.day <= 365 + if Leap(d.year) then 1 else 0
  {
    MonthsAddUp(d.year);
    if d.month < 12 { MonthsInOrder(d.year, d.month, 12); }
  }

  /** Calendar order is the order of the day numbers. */
  lemma BeforeIsOrdinal(a: Date, b: Date)
    requires ValidDate(a) && ValidDate(b)
    ensures Before(a, b) <==> Ordinal(a) < Ordinal(b)
  {
    BeforeIsLess(a, b);
    BeforeIsLess(b, a);
  }

  lemma BeforeIsLess(a: Date, b: Date)
    requires ValidDate(a) && ValidDate(b)
    ensures Before(a, b) ==> Ordinal(a) < Ordinal(b)
  {
    if a.year < b.year {
      InsideYear(a);
      InsideYear(b);
      YearsInOrder(a.year, b.year);
    } else if a.year == b.year && a.month < b.month {
      MonthsInOrder(a.year, a.month, b.month);
    }
  }

  /** The next month's date is valid, later, and at most one month on. */
  lemma InNextMonthIsLater(d: Date, day: int)
    requires ValidDate(d) && day >= 1
    ensures ValidDate(InNextMonth(d, day)) && Before(d, InNextMonth(d, day))
    ensures 12 * InNextMonth(d, day).year + InNextMonth(d, day).month == 12 * d.year + d.month + 1
    ensures InNextMonth(d, day).day == if day < MonthLength(NextMonth(d).0, NextMonth(d).1) then day
      else MonthLength(NextMonth(d).0, NextMonth(d).1)
  {
  }
}
