/**
 * The recurring calendar page: the 42-cell month grid, the events shown on
 * a day, the amount shown for an event, the urgent / this-week / upcoming
 * windows and the guards of the save and delete handlers. Calendar dates
 * are local dates; today's date is a parameter (the clock).
 */
module RecurringCalendarPage {
  import opened Wrappers
  import opened Dates
  import opened Sorting
  import opened CalendarSlice
  import IsoTime

  // ---------------------------------------------------------------------------
  // generateCalendarDays
  // ---------------------------------------------------------------------------

  datatype Cell = Cell(date: Date, isCurrentMonth: bool)

  /** The months a grid of (y, m) touches are in the calendar: the month before starts in year 1 or later. */
  predicate GridMonth(y: int, m: int)
  {
    1 <= m <= 12 && y >= 1 && (m > 1 || y >= 2)
  }

  /** The number of leading cells: the weekday of the month's first day, Sunday being 0. */
  function Lead(y: int, m: int): (n: int)
    requires GridMonth(y, m)
    ensures 0 <= n < 7
  {
    Weekday(Date(y, m, 1))
  }

  /**
   * The i-th cell of the grid: the last Lead days of the month before, then
   * every day of the month, then the month after from its first day on;
   * only the middle block is the current month.
   */
  function CellAt(y: int, m: int, i: int): (c: Cell)
    requires GridMonth(y, m) && 0 <= i < 42
    ensures ValidDate(c.date)
  {
    var lead, last := Lead(y, m), DaysInMonth(y, m);
    if i < lead then
      var p := PrevMonth(y, m);
      Cell(Date(p.0, p.1, DaysInMonth(p.0, p.1) - lead + 1 + i), false)
    else if i < lead + last then Cell(Date(y, m, i - lead + 1), true)
    else
      var n := NextMonth(y, m);
      Cell(Date(n.0, n.1, i - lead - last + 1), false)
  }

  /** generateCalendarDays for the month (y, m) of the current date. */
  method GenerateCalendarDays(y: int, m: int) returns (days: seq<Cell>)
    requires GridMonth(y, m)
    ensures |days| == 42
    ensures forall i :: 0 <= i < 42 ==> days[i] == CellAt(y, m, i)
  {
    var firstDayIndex := Weekday(Date(y, m, 1));
    var lastDate := DaysInMonth(y, m);
    var p := PrevMonth(y, m);
    var prevLastDate := DaysInMonth(p.0, p.1);
    days := [];
    var i := firstDayIndex - 1;
    while i >= 0
      invariant -1 <= i < firstDayIndex && |days| == firstDayIndex - 1 - i
      invariant forall j :: 0 <= j < |days| ==> days[j] == CellAt(y, m, j)
    {
      days := days + [Cell(Date(p.0, p.1, prevLastDate - i), false)];
      i := i - 1;
    }
    i := 1;
    while i <= lastDate
      invariant 1 <= i <= lastDate + 1 && |days| == firstDayIndex + i - 1
      invariant forall j :: 0 <= j < |days| ==> days[j] == CellAt(y, m, j)
    {
      days := days + [Cell(Date(y, m, i), true)];
      i := i + 1;
    }
    var n := NextMonth(y, m);
    var remainingDays := 42 - |days|;
    i := 1;
    while i <= remainingDays
      invariant 1 <= i <= remainingDays + 1 && |days| == firstDayIndex + lastDate + i - 1
      invariant forall j :: 0 <= j < |days| ==> days[j] == CellAt(y, m, j)
    {
      days := days + [Cell(Date(n.0, n.1, i), false)];
      i := i + 1;
    }
  }

  /** The cells are consecutive dates: the i-th is i days after the first, which is Lead days before the 1st. */
  lemma CellDayNumber(y: int, m: int, i: int)
    requires GridMonth(y, m) && 0 <= i < 42
    ensures DayNumber(CellAt(y, m, i).date) == DayNumber(Date(y, m, 1)) - Lead(y, m) + i
  {
    var lead, last := Lead(y, m), DaysInMonth(y, m);
    if i < lead {
      var p := PrevMonth(y, m);
      MonthBoundary(p.0, p.1);
    } else if i >= lead + last {
      MonthBoundary(y, m);
    }
  }

  /** Every grid starts on a Sunday, so the cell at index i falls on weekday i mod 7. */
  lemma CellWeekday(y: int, m: int, i: int)
    requires GridMonth(y, m) && 0 <= i < 42
    ensures Weekday(CellAt(y, m, i).date) == i % 7
  {
    CellDayNumber(y, m, i);
    var first := DayNumber(Date(y, m, 1));
    assert Lead(y, m) == (first + 1) % 7;
    WeekStartShift(first, i);
  }

  /** Stepping back to the Sunday on or before day a, then i days on, lands on weekday i mod 7. */
  lemma WeekStartShift(a: int, i: int)
    ensures (a - (a + 1) % 7 + i + 1) % 7 == i % 7
  {
    var q := (a + 1) / 7;
    assert a - (a + 1) % 7 + 1 == 7 * q;
    assert (7 * q + i) % 7 == i % 7;
  }

  /**
   * The grid's blocks: Lead(y, m) leading cells of the month before, ending
   * on its last day, then each day of the month once and in order, then the
   * month after from the 1st; the 42 cells are consecutive dates.
   */
  lemma GridShape(y: int, m: int)
    requires GridMonth(y, m)
    ensures var p := PrevMonth(y, m);
      Lead(y, m) > 0 ==> CellAt(y, m, Lead(y, m) - 1) == Cell(Date(p.0, p.1, DaysInMonth(p.0, p.1)), false)
    ensures forall i :: 0 <= i < 42 ==> (CellAt(y, m, i).isCurrentMonth <==> Lead(y, m) <= i < Lead(y, m) + DaysInMonth(y, m))
    ensures forall d :: 1 <= d <= DaysInMonth(y, m) ==> CellAt(y, m, Lead(y, m) + d - 1) == Cell(Date(y, m, d), true)
    ensures forall i :: 0 <= i < 41 ==> DayNumber(CellAt(y, m, i + 1).date) == DayNumber(CellAt(y, m, i).date) + 1
  {
    forall i | 0 <= i < 41
      ensures DayNumber(CellAt(y, m, i + 1).date) == DayNumber(CellAt(y, m, i).date) + 1
    {
      CellDayNumber(y, m, i);
      CellDayNumber(y, m, i + 1);
    }
  }

  /** The names of the weekdays. */
  datatype DayName = Sun | Mon | Tue | Wed | Thu | Fri | Sat

  /** The name of getDay()'s weekday number, Sunday being 0. */
  function NameOfWeekday(w: int): DayName
    requires 0 <= w < 7
  {
    [Sun, Mon, Tue, Wed, Thu, Fri, Sat][w]
  }

  /** The column headers as the page writes them: Monday first. */
  function HeaderAsWritten(column: int): DayName
    requires 0 <= column < 7
  {
    [Mon, Tue, Wed, Thu, Fri, Sat, Sun][column]
  }

  /** The column headers that match the Sunday-first padding, as the calendar grid component writes them. */
  function Header(column: int): DayName
    requires 0 <= column < 7
  {
    NameOfWeekday(column)
  }

  /**
   * As written, no column's header names the weekday of its cells: every
   * cell sits one weekday before its label (the Sunday under "Mon").
   */
  lemma HeadersMislabelCells(y: int, m: int, i: int)
    requires GridMonth(y, m) && 0 <= i < 42
    ensures HeaderAsWritten(i % 7) != NameOfWeekday(Weekday(CellAt(y, m, i).date))
    ensures HeaderAsWritten(i % 7) == NameOfWeekday((Weekday(CellAt(y, m, i).date) + 1) % 7)
  {
    CellWeekday(y, m, i);
    HeaderShift(i % 7);
  }

  /** Each written header names the weekday after its column's. */
  lemma HeaderShift(w: int)
    requires 0 <= w < 7
    ensures HeaderAsWritten(w) == NameOfWeekday((w + 1) % 7) && HeaderAsWritten(w) != NameOfWeekday(w)
  {
    if w == 0 {} else if w == 1 {} else if w == 2 {} else if w == 3 {} else if w == 4 {} else if w == 5 {} else {}
  }

  /** With Sunday-first headers each cell sits under the name of its own weekday. */
  lemma HeadersNameCells(y: int, m: int, i: int)
    requires GridMonth(y, m) && 0 <= i < 42
    ensures Header(i % 7) == NameOfWeekday(Weekday(CellAt(y, m, i).date))
  {
    CellWeekday(y, m, i);
  }

  /** A concrete month that shows it: the grid of January 2023 starts on Sunday the 1st, under "Mon". */
  lemma MislabelExample()
    ensures GridMonth(2023, 1) && Lead(2023, 1) == 0 && CellAt(2023, 1, 0) == Cell(Date(2023, 1, 1), true)
    ensures HeaderAsWritten(0) == Mon && NameOfWeekday(Weekday(Date(2023, 1, 1))) == Sun
  {
    IsoTime.DaysBeforeYearClosed(2023);
    assert DaysBeforeYear(2023) == 738520;
    assert DayNumber(Date(2023, 1, 1)) == 738520;
    assert Weekday(Date(2023, 1, 1)) == 738521 % 7 == 0;
    assert Lead(2023, 1) == 0;
  }

  // ---------------------------------------------------------------------------
  // getEventsForDay
  // ---------------------------------------------------------------------------

  /** The events of s, keeping only the first event of each (title, date) key. */
  function FirstByKey(s: seq<ClientEvent>): (r: seq<ClientEvent>)
    ensures |r| <= |s|
    decreases |s|
  {
    if s == [] then []
    else
      var init, e := s[..|s| - 1], s[|s| - 1];
      if HasKey(init, KeyOf(e)) then FirstByKey(init) else FirstByKey(init) + [e]
  }

  /** The events on a day, in their order. */
  function EventsOnDay(events: seq<ClientEvent>, day: Date): (r: seq<ClientEvent>)
    requires ValidDate(day)
    ensures forall k :: 0 <= k < |r| ==> OnDay(r[k].date, day) && r[k] in events
    ensures forall k :: 0 <= k < |events| && OnDay(events[k].date, day) ==> events[k] in r
  {
    Filter(events, (e: ClientEvent) => OnDay(e.date, day))
  }

  /**
   * What FirstByKey keeps: no key twice, each kept event the first of s with
   * its key, and every key of s kept.
   */
  lemma FirstByKeyProperties(s: seq<ClientEvent>)
    ensures var r := FirstByKey(s);
      && (forall i, j :: 0 <= i < j < |r| ==> KeyOf(r[i]) != KeyOf(r[j]))
      && (forall i :: 0 <= i < |r| ==> HasKey(s, KeyOf(r[i])) && r[i] == s[FirstIndex(s, KeyOf(r[i]))])
      && (forall j :: 0 <= j < |s| ==> HasKey(r, KeyOf(s[j])))
  {
    FirstByKeyFirsts(s);
  }

  /** r keeps, of the events of s, exactly the first one of each key. */
  ghost predicate FirstsOf(s: seq<ClientEvent>, r: seq<ClientEvent>)
  {
    && (forall i, j :: 0 <= i < j < |r| ==> KeyOf(r[i]) != KeyOf(r[j]))
    && (forall i :: 0 <= i < |r| ==> HasKey(s, KeyOf(r[i])) && r[i] == s[FirstIndex(s, KeyOf(r[i]))])
    && (forall j :: 0 <= j < |s| ==> HasKey(r, KeyOf(s[j])))
  }

  lemma {:induction false} FirstByKeyFirsts(s: seq<ClientEvent>)
    ensures FirstsOf(s, FirstByKey(s))
    decreases |s|
  {
    if s != [] {
      var init, e := s[..|s| - 1], s[|s| - 1];
      FirstByKeyFirsts(init);
      if HasKey(init, KeyOf(e)) {
        SeenKeyStep(s, init, e, FirstByKey(init));
      } else {
        NewKeyStep(s, init, e, FirstByKey(init));
      }
    }
  }

  /** The keys and first indices of s, one event longer than init. */
  lemma KeysOfAppend(s: seq<ClientEvent>, init: seq<ClientEvent>, e: ClientEvent)
    requires s == init + [e]
    ensures forall k: Key :: HasKey(s, k) <==> HasKey(init, k) || KeyOf(e) == k
    ensures forall k: Key :: HasKey(init, k) ==> FirstIndex(s, k) == FirstIndex(init, k)
  {
    forall k: Key
      ensures HasKey(s, k) <==> HasKey(init, k) || KeyOf(e) == k
      ensures HasKey(init, k) ==> FirstIndex(s, k) == FirstIndex(init, k)
    {
      HasKeyAppend(init, e, k);
      FirstIndexAppend(init, e, k);
    }
  }

  /** An event whose key was seen before leaves the firsts unchanged. */
  lemma SeenKeyStep(s: seq<ClientEvent>, init: seq<ClientEvent>, e: ClientEvent, r0: seq<ClientEvent>)
    requires |s| > 0 && init == s[..|s| - 1] && e == s[|s| - 1]
    requires FirstsOf(init, r0) && HasKey(init, KeyOf(e))
    ensures FirstsOf(s, r0)
  {
    assert s == init + [e];
    KeysOfAppend(s, init, e);
    var w :| 0 <= w < |init| && KeyOf(init[w]) == KeyOf(e);
    assert HasKey(r0, KeyOf(init[w]));
  }

  /** An event with a new key is appended to the firsts. */
  lemma NewKeyStep(s: seq<ClientEvent>, init: seq<ClientEvent>, e: ClientEvent, r0: seq<ClientEvent>)
    requires |s| > 0 && init == s[..|s| - 1] && e == s[|s| - 1]
    requires FirstsOf(init, r0) && !HasKey(init, KeyOf(e))
    ensures FirstsOf(s, r0 + [e])
  {
    assert s == init + [e];
    KeysOfAppend(s, init, e);
    FirstIndexAppend(init, e, KeyOf(e));
    var r := r0 + [e];
    forall i | 0 <= i < |r0|
      ensures KeyOf(r0[i]) != KeyOf(e)
    {
      assert HasKey(init, KeyOf(r0[i]));
    }
    forall j | 0 <= j < |s|
      ensures HasKey(r, KeyOf(s[j]))
    {
      if j < |init| {
        HasKeyAppend(r0, e, KeyOf(s[j]));
      } else {
        assert r[|r0|] == e;
      }
    }
  }

  /**
   * getEventsForDay: the events on the day, each (title, date) key once, the
   * first event with it kept, in their order.
   */
  method GetEventsForDay(calendarEvents: seq<ClientEvent>, day: Date) returns (uniqueEvents: seq<ClientEvent>)
    requires ValidDate(day)
    ensures uniqueEvents == FirstByKey(EventsOnDay(calendarEvents, day))
  {
    var onDay := EventsOnDay(calendarEvents, day);
    uniqueEvents := [];
    var eventMap: map<Key, ClientEvent> := map[];
    for i := 0 to |onDay|
      invariant uniqueEvents == FirstByKey(onDay[..i])
      invariant forall k :: k in eventMap <==> HasKey(onDay[..i], k)
    {
      var event := onDay[i];
      var key := KeyOf(event);
      PrefixStep(onDay, i);
      if key !in eventMap {
        eventMap := eventMap[key := event];
        uniqueEvents := uniqueEvents + [event];
      }
    }
    assert onDay[..|onDay|] == onDay;
  }

  /** One more event of s: FirstByKey keeps it iff its key is new, and the seen keys grow by its key. */
  lemma PrefixStep(s: seq<ClientEvent>, i: nat)
    requires i < |s|
    ensures FirstByKey(s[..i + 1]) == if HasKey(s[..i], KeyOf(s[i])) then FirstByKey(s[..i]) else FirstByKey(s[..i]) + [s[i]]
    ensures forall k :: HasKey(s[..i + 1], k) <==> HasKey(s[..i], k) || KeyOf(s[i]) == k
  {
    assert s[..i + 1][..i] == s[..i];
    assert s[..i + 1] == s[..i] + [s[i]];
    forall k: Key
      ensures HasKey(s[..i + 1], k) <==> HasKey(s[..i], k) || KeyOf(s[i]) == k
    {
      HasKeyAppend(s[..i], s[i], k);
    }
  }

  /**
   * The events a day cell shows are on that day, with no (title, date) key
   * twice, and every event of the day has its key shown.
   */
  lemma DayCellEvents(calendarEvents: seq<ClientEvent>, day: Date)
    requires ValidDate(day)
    ensures var r := FirstByKey(EventsOnDay(calendarEvents, day));
      && (forall i :: 0 <= i < |r| ==> r[i] in calendarEvents && OnDay(r[i].date, day))
      && (forall i, j :: 0 <= i < j < |r| ==> KeyOf(r[i]) != KeyOf(r[j]))
      && (forall e :: e in calendarEvents && OnDay(e.date, day) ==> HasKey(r, KeyOf(e)))
  {
    var s := EventsOnDay(calendarEvents, day);
    FirstByKeyProperties(s);
    forall e | e in calendarEvents && OnDay(e.date, day)
      ensures HasKey(FirstByKey(s), KeyOf(e))
    {
      var k :| 0 <= k < |s| && s[k] == e;
    }
  }

  // ---------------------------------------------------------------------------
  // getEventAmount
  // ---------------------------------------------------------------------------

  /**
   * getEventAmount: the stored amount of the event when it is truthy (not
   * 0); otherwise the amount of the first recurring payment named like the
   * first event with that id, when truthy; otherwise 0.
   */
  function GetEventAmount(eventAmounts: map<nat, real>, calendarEvents: seq<ClientEvent>, recurringPayments: seq<Payment>,
                          eventId: nat): (r: real)
    ensures eventId in eventAmounts && eventAmounts[eventId] != 0.0 ==> r == eventAmounts[eventId]
    ensures !(eventId in eventAmounts && eventAmounts[eventId] != 0.0) ==>
      match FindIndexById(calendarEvents, eventId)
      case None => r == 0.0
      case Some(i) =>
        match FindPayment(recurringPayments, calendarEvents[i].title)
        case None => r == 0.0
        case Some(p) => r == p.amount
  {
    if eventId in eventAmounts && eventAmounts[eventId] != 0.0 then eventAmounts[eventId]
    else
      match FindIndexById(calendarEvents, eventId)
      case None => 0.0
      case Some(i) =>
        match FindPayment(recurringPayments, calendarEvents[i].title)
        case None => 0.0
        case Some(p) => if p.amount != 0.0 then p.amount else 0.0
  }

  /**
   * A non-zero amount comes from somewhere: it is the event's stored amount,
   * or the amount of a recurring payment titled like an event with that id.
   */
  lemma AmountHasSource(eventAmounts: map<nat, real>, calendarEvents: seq<ClientEvent>, recurringPayments: seq<Payment>,
                        eventId: nat)
    ensures var r := GetEventAmount(eventAmounts, calendarEvents, recurringPayments, eventId);
      r != 0.0 ==> (eventId in eventAmounts && r == eventAmounts[eventId])
                   || (exists e, p :: e in calendarEvents && p in recurringPayments && e.eventId == eventId
                                      && p.paymentName == e.title && p.amount == r)
  {
    var r := GetEventAmount(eventAmounts, calendarEvents, recurringPayments, eventId);
    if r != 0.0 && !(eventId in eventAmounts && eventAmounts[eventId] != 0.0) {
      var i := FindIndexById(calendarEvents, eventId).value;
      var p := FindPayment(recurringPayments, calendarEvents[i].title).value;
      assert calendarEvents[i] in calendarEvents;
    }
  }

  // ---------------------------------------------------------------------------
  // The event windows
  // ---------------------------------------------------------------------------

  /** endOfWeek(today): the last millisecond of the Saturday ending today's week. */
  function WeekEnd(today: Date): (t: int)
    requires ValidDate(today)
    ensures StartOfDay(today) < t < StartOfDay(today) + 7 * MsPerDay
  {
    StartOfDay(today) + (7 - Weekday(today)) * MsPerDay - 1
  }

  /** Urgent: from today's midnight to the midnight seven days later, both included. */
  predicate IsUrgent(t: int, today: Date)
    requires ValidDate(today)
  {
    StartOfDay(today) <= t <= StartOfDay(today) + 7 * MsPerDay
  }

  /** This week: from today's midnight to the end of the week. */
  predicate IsThisWeek(t: int, today: Date)
    requires ValidDate(today)
  {
    StartOfDay(today) <= t <= WeekEnd(today)
  }

  /** Upcoming: after the end of the week, up to midnight of the day six months on. */
  predicate IsUpcoming(t: int, today: Date)
    requires ValidDate(today)
  {
    WeekEnd(today) < t <= StartOfDay(AddMonths(today, 6))
  }

  function UrgentEvents(events: seq<ClientEvent>, today: Date): seq<ClientEvent>
    requires ValidDate(today)
  {
    Filter(events, (e: ClientEvent) => IsUrgent(e.date, today))
  }

  function ThisWeekEvents(events: seq<ClientEvent>, today: Date): seq<ClientEvent>
    requires ValidDate(today)
  {
    Filter(events, (e: ClientEvent) => IsThisWeek(e.date, today))
  }

  function UpcomingEvents(events: seq<ClientEvent>, today: Date): seq<ClientEvent>
    requires ValidDate(today)
  {
    Filter(events, (e: ClientEvent) => IsUpcoming(e.date, today))
  }

  /**
   * Every event of this week is urgent, and no event is both this week's and
   * upcoming.
   */
  lemma WindowsNest(events: seq<ClientEvent>, today: Date)
    requires ValidDate(today)
    ensures forall e :: e in ThisWeekEvents(events, today) ==> e in UrgentEvents(events, today)
    ensures forall e :: e in ThisWeekEvents(events, today) ==> e !in UpcomingEvents(events, today)
  {
    var w, u, up := ThisWeekEvents(events, today), UrgentEvents(events, today), UpcomingEvents(events, today);
    forall e | e in w
      ensures e in u && e !in up
    {
      var k :| 0 <= k < |w| && w[k] == e;
      assert IsThisWeek(e.date, today);
      var j :| 0 <= j < |events| && events[j] == e;
      assert IsUrgent(events[j].date, today);
    }
  }

  /** isSameMonth(t, today): t lies in today's calendar month. */
  predicate InMonthOf(t: int, today: Date)
    requires ValidDate(today)
  {
    var n := NextMonth(today.year, today.month);
    StartOfDay(Date(today.year, today.month, 1)) <= t < StartOfDay(Date(n.0, n.1, 1))
  }

  /** paymentsThisMonth: how many events of this month have a positive amount. */
  function PaymentsThisMonth(eventAmounts: map<nat, real>, calendarEvents: seq<ClientEvent>, recurringPayments: seq<Payment>,
                             today: Date): (n: nat)
    requires ValidDate(today)
    ensures n <= |calendarEvents|
  {
    |Filter(calendarEvents, (e: ClientEvent) => InMonthOf(e.date, today) && GetEventAmount(eventAmounts, calendarEvents, recurringPayments, e.eventId) > 0.0)|
  }

  // ---------------------------------------------------------------------------
  // Handler guards
  // ---------------------------------------------------------------------------

  datatype PageAction = SaveAction | DeleteAction | DeleteAllAction

  /**
   * Whether a handler dispatches its thunk: nothing while a save or delete is
   * processing; deleting also waits for a running delete, and deleting one
   * event needs a selected event.
   */
  function Dispatches(action: PageAction, hasSelection: bool, isDeleting: bool, isProcessing: bool): (r: bool)
    ensures isProcessing ==> !r
    ensures action == SaveAction ==> (r <==> !isProcessing)
    ensures action == DeleteAction ==> (r <==> hasSelection && !isDeleting && !isProcessing)
    ensures action == DeleteAllAction ==> (r <==> !isDeleting && !isProcessing)
  {
    match action
    case SaveAction => !isProcessing
    case DeleteAction => hasSelection && !isDeleting && !isProcessing
    case DeleteAllAction => !isDeleting && !isProcessing
  }
}
