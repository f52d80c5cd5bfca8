/**
 * Calendar arithmetic on local dates, as JavaScript's Date and date-fns do it:
 * the proleptic Gregorian calendar, months numbered 1..12 here (JavaScript's
 * getMonth() is this month minus one), weekdays numbered from Sunday = 0 as
 * getDay() does. Instants are milliseconds counted from 0001-01-01 00:00 local
 * time; time zones and daylight saving are not part of the model.
 */
module Dates {
  /** 1000 * 60 * 60 * 24 */
  const MsPerDay: int := 86_400_000

  datatype Date = Date(year: int, month: int, day: int)

  predicate IsLeapYear(y: int)
  {
    y % 4 == 0 && (y % 100 != 0 || y % 400 == 0)
  }

  function DaysInMonth(y: int, m: int): (n: int)
    requires 1 <= m <= 12
    ensures 28 <= n <= 31
    ensures m == 2 ==> (n == 29 <==> IsLeapYear(y))
  {
    if m == 2 then (if IsLeapYear(y) then 29 else 28)
    else if m == 4 || m == 6 || m == 9 || m == 11 then 30
    else 31
  }

  function DaysInYear(y: int): int
  {
    if IsLeapYear(y) then 366 else 365
  }

  /** Days from 0001-01-01 to the first of January of year y. */
  function DaysBeforeYear(y: int): (n: nat)
    requires y >= 1
    decreases y
  {
    if y == 1 then 0 else DaysBeforeYear(y - 1) + DaysInYear(y - 1)
  }

  /** Days from the first of January of year y to the first of month m. */
  function DaysBeforeMonth(y: int, m: int): (n: nat)
    requires 1 <= m <= 12
    decreases m
  {
    if m == 1 then 0 else DaysBeforeMonth(y, m - 1) + DaysInMonth(y, m - 1)
  }

  predicate ValidDate(d: Date)
  {
    d.year >= 1 && 1 <= d.month <= 12 && 1 <= d.day <= DaysInMonth(d.year, d.month)
  }

  /** The number of days from 0001-01-01 to d: consecutive dates get consecutive numbers. */
  function DayNumber(d: Date): nat
    requires ValidDate(d)
  {
    DaysBeforeYear(d.year) + DaysBeforeMonth(d.year, d.month) + d.day - 1
  }

  /** getDay(): 0 for Sunday up to 6 for Saturday (0001-01-01 was a Monday). */
  function Weekday(d: Date): (w: int)
    requires ValidDate(d)
    ensures 0 <= w < 7
  {
    (DayNumber(d) + 1) % 7
  }

  /** Lexicographic order on (year, month, day). */
  predicate Before(a: Date, b: Date)
  {
    a.year < b.year || (a.year == b.year && (a.month < b.month || (a.month == b.month && a.day < b.day)))
  }

  /** The months of a year fill exactly that year. */
  lemma {:induction false} MonthsFillYear(y: int, m: int)
    requires 1 <= m <= 12
    ensures DaysBeforeMonth(y, m) + DaysInMonth(y, m) <= DaysInYear(y)
    ensures m == 12 ==> DaysBeforeMonth(y, m) + DaysInMonth(y, m) == DaysInYear(y)
  {
    var f := DaysInMonth(y, 2);
    assert DaysBeforeMonth(y, 12) == 31 + f + 31 + 30 + 31 + 30 + 31 + 31 + 30 + 31 + 30;
  }

  /** Earlier months start earlier in the year. */
  lemma {:induction false} DaysBeforeMonthGrows(y: int, m1: int, m2: int)
    requires 1 <= m1 < m2 <= 12
    ensures DaysBeforeMonth(y, m1) + DaysInMonth(y, m1) <= DaysBeforeMonth(y, m2)
    decreases m2 - m1
  {
    if m1 + 1 < m2 {
      DaysBeforeMonthGrows(y, m1 + 1, m2);
    }
  }

  /** Earlier years start earlier, and a date lies inside its own year. */
  lemma {:induction false} DaysBeforeYearGrows(y1: int, y2: int)
    requires 1 <= y1 < y2
    ensures DaysBeforeYear(y1) + DaysInYear(y1) <= DaysBeforeYear(y2)
    decreases y2 - y1
  {
    if y1 + 1 < y2 {
      DaysBeforeYearGrows(y1 + 1, y2);
    }
  }

  /** Day numbers follow the calendar order. */
  lemma DayNumberOrder(a: Date, b: Date)
    requires ValidDate(a) && ValidDate(b) && Before(a, b)
    ensures DayNumber(a) < DayNumber(b)
  {
    MonthsFillYear(a.year, a.month);
    if a.year < b.year {
      DaysBeforeYearGrows(a.year, b.year);
    } else if a.month < b.month {
      DaysBeforeMonthGrows(a.year, a.month, b.month);
    }
  }

  /** The month before (y, m), as `new Date(y, m - 1, ...)` normalises it. */
  function PrevMonth(y: int, m: int): (r: (int, int))
    requires 1 <= m <= 12
    ensures 1 <= r.1 <= 12
    ensures r.0 == (if m == 1 then y - 1 else y)
    ensures r.1 == (if m == 1 then 12 else m - 1)
  {
    if m == 1 then (y - 1, 12) else (y, m - 1)
  }

  /** The month after (y, m). */
  function NextMonth(y: int, m: int): (r: (int, int))
    requires 1 <= m <= 12
    ensures 1 <= r.1 <= 12
    ensures r.0 == (if m == 12 then y + 1 else y)
    ensures r.1 == (if m == 12 then 1 else m + 1)
  {
    if m == 12 then (y + 1, 1) else (y, m + 1)
  }

  /** The first day of a month directly follows the last day of the month before. */
  lemma MonthBoundary(y: int, m: int)
    requires y >= 1 && 1 <= m <= 12
    ensures var n := NextMonth(y, m);
      ValidDate(Date(n.0, n.1, 1)) && ValidDate(Date(y, m, DaysInMonth(y, m)))
      && DayNumber(Date(n.0, n.1, 1)) == DayNumber(Date(y, m, DaysInMonth(y, m))) + 1
  {
    MonthsFillYear(y, m);
  }

  /** The last day of a month is (days in month - 1) days after its first. */
  lemma LastDayWeekday(y: int, m: int)
    requires y >= 1 && 1 <= m <= 12
    ensures ValidDate(Date(y, m, 1)) && ValidDate(Date(y, m, DaysInMonth(y, m)))
    ensures Weekday(Date(y, m, DaysInMonth(y, m))) == (Weekday(Date(y, m, 1)) + DaysInMonth(y, m) - 1) % 7
  {
    var first, last := DayNumber(Date(y, m, 1)), DayNumber(Date(y, m, DaysInMonth(y, m)));
    assert last == first + DaysInMonth(y, m) - 1;
    assert last + 1 == (first + 1) + (DaysInMonth(y, m) - 1);
  }

  /** date-fns addMonths: the same day k months later, clamped to the length of that month. */
  function AddMonths(d: Date, k: nat): (r: Date)
    requires ValidDate(d)
    ensures ValidDate(r)
    ensures r.day <= d.day
    ensures (r.year - d.year) * 12 + r.month - d.month == k
  {
    var idx := d.month - 1 + k;
    var y := d.year + idx / 12;
    var m := idx % 12 + 1;
    var last := DaysInMonth(y, m);
    Date(y, m, if d.day <= last then d.day else last)
  }

  /** startOfDay: the instant at midnight opening the date. */
  function StartOfDay(d: Date): nat
    requires ValidDate(d)
  {
    DayNumber(d) * MsPerDay
  }

  /** date-fns isSameDay for an instant and a date. */
  predicate OnDay(t: int, d: Date)
    requires ValidDate(d)
  {
    StartOfDay(d) <= t < StartOfDay(d) + MsPerDay
  }
}
