/**
 * The calendar grid component: blank cells before the month's first day,
 * one cell per day of the month, blank cells after its last day, and the
 * events each day cell lists.
 */
module CalendarGrid {
  import opened Dates
  import opened Sorting
  import opened CalendarSlice

  /** Blank cells before the 1st: getDay of the month's start, Sunday being 0. */
  function LeadingBlanks(y: int, m: int): (n: int)
    requires y >= 1 && 1 <= m <= 12
    ensures 0 <= n <= 6
  {
    Weekday(Date(y, m, 1))
  }

  /** Blank cells after the last day: 6 minus getDay of the month's end. */
  function TrailingBlanks(y: int, m: int): (n: int)
    requires y >= 1 && 1 <= m <= 12
    ensures 0 <= n <= 6
  {
    6 - Weekday(Date(y, m, DaysInMonth(y, m)))
  }

  /** eachDayOfInterval from the month's start to its end. */
  function MonthDays(y: int, m: int): (r: seq<Date>)
    requires y >= 1 && 1 <= m <= 12
    ensures |r| == DaysInMonth(y, m)
    ensures forall i :: 0 <= i < |r| ==> r[i] == Date(y, m, i + 1) && ValidDate(r[i])
  {
    seq(DaysInMonth(y, m), i requires 0 <= i < DaysInMonth(y, m) => Date(y, m, i + 1))
  }

  /**
   * Each date of the month has exactly one cell, in calendar order, from the
   * 1st to the last day.
   */
  lemma OneCellPerDay(y: int, m: int, d: Date)
    requires y >= 1 && 1 <= m <= 12 && ValidDate(d) && d.year == y && d.month == m
    ensures exists i :: 0 <= i < |MonthDays(y, m)| && MonthDays(y, m)[i] == d
    ensures forall i, j :: 0 <= i < j < |MonthDays(y, m)| ==> DayNumber(MonthDays(y, m)[i]) < DayNumber(MonthDays(y, m)[j])
  {
    assert MonthDays(y, m)[d.day - 1] == d;
  }

  /** The blank and day cells fill whole weeks: their count is a multiple of 7. */
  lemma WholeWeeks(y: int, m: int)
    requires y >= 1 && 1 <= m <= 12
    ensures (LeadingBlanks(y, m) + |MonthDays(y, m)| + TrailingBlanks(y, m)) % 7 == 0
  {
    LastDayWeekday(y, m);
    var lead, n := LeadingBlanks(y, m), DaysInMonth(y, m);
    assert Weekday(Date(y, m, n)) == (lead + n - 1) % 7;
  }

  /** getEventsForDay: every event on the day, in order, duplicates included. */
  function GetEventsForDay(calendarEvents: seq<ClientEvent>, day: Date): (r: seq<ClientEvent>)
    requires ValidDate(day)
    ensures forall e :: e in r <==> e in calendarEvents && OnDay(e.date, day)
  {
    Filter(calendarEvents, (e: ClientEvent) => OnDay(e.date, day))
  }

  /** Two events on the day with the same title and date are both listed: nothing is de-duplicated. */
  lemma KeepsDuplicates(e1: ClientEvent, e2: ClientEvent, day: Date)
    requires ValidDate(day) && OnDay(e1.date, day) && KeyOf(e1) == KeyOf(e2) && e1.eventId != e2.eventId
    ensures e2.date == e1.date
    ensures var r := GetEventsForDay([e1, e2], day); |r| == 2 && r[0] == e1 && r[1] == e2
  {
    var s := [e1, e2];
    assert s[1..] == [e2];
    assert s[1..][1..] == [];
  }
}
