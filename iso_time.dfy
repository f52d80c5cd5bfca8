/**
 * Date.prototype.toISOString and the Date constructor's reading of that
 * text, on instants counted in milliseconds from 0001-01-01T00:00:00.000Z
 * (UTC, so no time zone enters). The calendar date of a day number is
 * computed year by year and month by month.
 */
module IsoTime {
  import opened Wrappers
  import opened Js
  import opened Dates
  import opened NumberText

  /** Days from 0001-01-01 to 1970-01-01. */
  const UnixEpochDay: nat := 719162

  /** The Unix epoch (Date.now() == 0) on this module's instant line. */
  const UnixEpoch: nat := UnixEpochDay * MsPerDay

  /** Day number 3652059 is 10000-01-01: instants below this bound have four-digit years. */
  const FourDigitYearsEnd: nat := 3652059 * MsPerDay

  /** Counting one up from k passes a multiple of 4, of 100 and of 400 exactly when k + 1 is one. */
  lemma DivSteps(k: nat)
    ensures (k + 1) / 4 - k / 4 == (if (k + 1) % 4 == 0 then 1 else 0)
    ensures (k + 1) / 100 - k / 100 == (if (k + 1) % 100 == 0 then 1 else 0)
    ensures (k + 1) / 400 - k / 400 == (if (k + 1) % 400 == 0 then 1 else 0)
  {
  }

  /** The length of year k + 1 counted by the multiples of 4, 100 and 400. */
  lemma YearLength(k: nat)
    ensures DaysInYear(k + 1) == 365 + ((k + 1) / 4 - k / 4) - ((k + 1) / 100 - k / 100) + ((k + 1) / 400 - k / 400)
  {
    DivSteps(k);
  }

  /** The Gregorian count of days before a year, in closed form. */
  lemma {:induction false} DaysBeforeYearClosed(y: int)
    requires y >= 1
    ensures DaysBeforeYear(y) == 365 * (y - 1) + (y - 1) / 4 - (y - 1) / 100 + (y - 1) / 400
    decreases y
  {
    if y > 1 {
      DaysBeforeYearClosed(y - 1);
      YearLength(y - 2);
    }
  }

  /** 1970-01-01 is day 719162, and 10000-01-01 day 3652059. */
  lemma EpochDays()
    ensures ValidDate(Date(1970, 1, 1)) && DayNumber(Date(1970, 1, 1)) == UnixEpochDay
    ensures DaysBeforeYear(10000) == 3652059
  {
    DaysBeforeYearClosed(1970);
    DaysBeforeYearClosed(10000);
  }

  /** The year holding day `rem` counted from the start of year y, and the day within it. */
  function YearFrom(y: int, rem: nat): (r: (int, nat))
    requires y >= 1
    ensures r.0 >= y && r.1 < DaysInYear(r.0)
    ensures DaysBeforeYear(r.0) + r.1 == DaysBeforeYear(y) + rem
    decreases rem
  {
    if rem < DaysInYear(y) then (y, rem) else YearFrom(y + 1, rem - DaysInYear(y))
  }

  /** The month holding day `rem` counted from the start of month m of year y, and the day within it. */
  function MonthFrom(y: int, m: int, rem: nat): (r: (int, nat))
    requires 1 <= m <= 12 && DaysBeforeMonth(y, m) + rem < DaysInYear(y)
    ensures m <= r.0 <= 12 && r.1 < DaysInMonth(y, r.0)
    ensures DaysBeforeMonth(y, r.0) + r.1 == DaysBeforeMonth(y, m) + rem
    decreases 12 - m
  {
    MonthsFillYear(y, m);
    if rem < DaysInMonth(y, m) then (m, rem) else MonthFrom(y, m + 1, rem - DaysInMonth(y, m))
  }

  /** The calendar date of a day number: the inverse of DayNumber. */
  function CivilFromDays(n: nat): (d: Date)
    ensures ValidDate(d) && DayNumber(d) == n
    ensures DaysBeforeYear(d.year) <= n
  {
    var (y, dayOfYear) := YearFrom(1, n);
    var (m, dayOfMonth) := MonthFrom(y, 1, dayOfYear);
    Date(y, m, dayOfMonth + 1)
  }

  /** CivilFromDays undoes DayNumber: distinct dates have distinct day numbers. */
  lemma CivilOfDayNumber(d: Date)
    requires ValidDate(d)
    ensures CivilFromDays(DayNumber(d)) == d
  {
    var c := CivilFromDays(DayNumber(d));
    if c != d {
      if Before(c, d) {
        DayNumberOrder(c, d);
      } else {
        DayNumberOrder(d, c);
      }
    }
  }

  /** Instants before 10000-01-01 fall in years 1 to 9999. */
  lemma FourDigitYear(t: nat)
    requires t < FourDigitYearsEnd
    ensures 1 <= CivilFromDays(t / MsPerDay).year <= 9999
  {
    var d := CivilFromDays(t / MsPerDay);
    EpochDays();
    if d.year > 10000 {
      DaysBeforeYearGrows(10000, d.year);
    }
  }

  /**
   * The YYYY-MM-DD part of Date.prototype.toISOString for a UTC calendar
   * date: four year digits for years 0 to 9999, otherwise a sign and six.
   */
  function IsoDate(d: Date): (r: string)
  {
    YearText(d.year) + "-" + TwoDigits(d.month) + "-" + TwoDigits(d.day)
  }

  /** The year field of toISOString: four digits for years 0 to 9999, otherwise a sign and six digits. */
  function YearText(y: int): string
  {
    if 0 <= y <= 9999 then PadStart(NatText(y), 4, '0')
    else (if y < 0 then "-" else "+") + PadStart(NatText(if y < 0 then -y else y), 6, '0')
  }

  lemma PadFour(n: int)
    requires 0 <= n <= 9999
    ensures |YearText(n)| == 4
    ensures AllDigits(YearText(n))
    ensures DigitsValue(YearText(n)) == n
  {
    ShortNatText(n);
    PaddedNat(n, 4);
  }

  lemma DashedParts(y: string, m: string, d: string)
    requires |y| == 4 && |m| == 2 && |d| == 2
    ensures var r := y + "-" + m + "-" + d;
      |r| == 10 && r[4] == '-' && r[7] == '-' && r[..4] == y && r[5..7] == m && r[8..] == d
  {
  }

  /** Three digit fields joined by dashes read back field by field. */
  lemma DashedDigits(y: string, m: string, d: string)
    requires |y| == 4 && |m| == 2 && |d| == 2 && AllDigits(y) && AllDigits(m) && AllDigits(d)
    ensures var r := y + "-" + m + "-" + d;
      |r| == 10 && r[4] == '-' && r[7] == '-'
      && AllDigits(r[..4]) && DigitsValue(r[..4]) == DigitsValue(y)
      && AllDigits(r[5..7]) && DigitsValue(r[5..7]) == DigitsValue(m)
      && AllDigits(r[8..]) && DigitsValue(r[8..]) == DigitsValue(d)
  {
    DashedParts(y, m, d);
  }

  /**
   * Reading the ISO date of a year 0 to 9999 back: ten characters, dashes at
   * positions 4 and 7, and the three fields denote year, month and day.
   */
  lemma IsoDateReadsBack(d: Date)
    requires 0 <= d.year <= 9999 && 0 <= d.month < 100 && 0 <= d.day < 100
    ensures var r := IsoDate(d);
      |r| == 10 && r[4] == '-' && r[7] == '-'
      && AllDigits(r[..4]) && DigitsValue(r[..4]) == d.year
      && AllDigits(r[5..7]) && DigitsValue(r[5..7]) == d.month
      && AllDigits(r[8..]) && DigitsValue(r[8..]) == d.day
  {
    PadFour(d.year);
    TwoDigitsReadsBack(d.month);
    TwoDigitsReadsBack(d.day);
    DashedDigits(YearText(d.year), TwoDigits(d.month), TwoDigits(d.day));
  }

  /** `String(n).padStart(3, "0")` */
  function ThreeDigits(n: int): (r: string)
  {
    PadStart(WholeText(n), 3, '0')
  }

  lemma ThreeDigitsReadsBack(n: int)
    requires 0 <= n < 1000
    ensures |ThreeDigits(n)| == 3
    ensures AllDigits(ThreeDigits(n))
    ensures DigitsValue(ThreeDigits(n)) == n
  {
    ShortNatText(n);
    PaddedNat(n, 3);
  }

  /** The HH:mm:ss.sss part of toISOString for the milliseconds into a day. */
  function TimeText(x: nat): (r: string)
    requires x < MsPerDay
  {
    TwoDigits(x / 3_600_000) + ":" + TwoDigits(x / 60_000 % 60) + ":" + TwoDigits(x / 1000 % 60) + "." + ThreeDigits(x % 1000)
  }

  /** Date.prototype.toISOString: YYYY-MM-DDTHH:mm:ss.sssZ. */
  function IsoText(t: nat): (r: string)
  {
    IsoDate(CivilFromDays(t / MsPerDay)) + "T" + TimeText(t % MsPerDay) + "Z"
  }

  /** The YYYY-MM-DD part read back; None for text of another shape or a date that does not exist. */
  function ParseDate(p: string): (r: Option<Date>)
    ensures r.Some? ==> ValidDate(r.value)
  {
    if |p| == 10 && p[4] == '-' && p[7] == '-' && AllDigits(p[..4]) && AllDigits(p[5..7]) && AllDigits(p[8..]) then
      var d := Date(DigitsValue(p[..4]), DigitsValue(p[5..7]), DigitsValue(p[8..]));
      if ValidDate(d) then Some(d) else None
    else None
  }

  /** The HH:mm:ss.sss part read back as milliseconds into the day. */
  function ParseTime(p: string): (r: Option<nat>)
    ensures r.Some? ==> r.value < MsPerDay
  {
    if |p| == 12 && p[2] == ':' && p[5] == ':' && p[8] == '.'
       && AllDigits(p[..2]) && AllDigits(p[3..5]) && AllDigits(p[6..8]) && AllDigits(p[9..]) then
      ClockMs(DigitsValue(p[..2]), DigitsValue(p[3..5]), DigitsValue(p[6..8]), DigitsValue(p[9..]))
    else None
  }

  /** Milliseconds into the day of a clock reading; None for an hour, minute or second out of range. */
  function ClockMs(h: nat, mi: nat, s: nat, ms: nat): (r: Option<nat>)
    ensures r.Some? ==> r.value < MsPerDay
  {
    if h < 24 && mi < 60 && s < 60 && ms < 1000 then Some(h * 3_600_000 + mi * 60_000 + s * 1000 + ms) else None
  }

  /**
   * `new Date(text).getTime()` for text in the form toISOString writes with
   * a four-digit year; None is an Invalid Date.
   */
  function ParseIso(s: string): (r: Option<nat>)
  {
    if |s| == 24 && s[10] == 'T' && s[23] == 'Z' then
      match (ParseDate(s[..10]), ParseTime(s[11..23]))
      case (Some(d), Some(x)) => Some(DayNumber(d) * MsPerDay + x)
      case _ => None
    else None
  }

  lemma TimeParts(a: string, b: string, c: string, d: string)
    requires |a| == 2 && |b| == 2 && |c| == 2 && |d| == 3
    ensures var r := a + ":" + b + ":" + c + "." + d;
      |r| == 12 && r[2] == ':' && r[5] == ':' && r[8] == '.' && r[..2] == a && r[3..5] == b && r[6..8] == c && r[9..] == d
  {
  }

  lemma TimeSum(x: nat)
    requires x < MsPerDay
    ensures x / 3_600_000 < 24 && x / 60_000 % 60 < 60 && x / 1000 % 60 < 60
    ensures (x / 3_600_000) * 3_600_000 + (x / 60_000 % 60) * 60_000 + (x / 1000 % 60) * 1000 + x % 1000 == x
  {
    var ms, s := x % 1000, x / 1000;
    assert x == s * 1000 + ms;
    var sec, mins := s % 60, s / 60;
    assert s == mins * 60 + sec;
    assert x / 60_000 == mins;
    var mi, h := mins % 60, mins / 60;
    assert mins == h * 60 + mi;
    assert x / 3_600_000 == h;
  }

  lemma ParseTimeParts(a: string, b: string, c: string, d: string)
    requires |a| == 2 && |b| == 2 && |c| == 2 && |d| == 3
    requires AllDigits(a) && AllDigits(b) && AllDigits(c) && AllDigits(d)
    ensures ParseTime(a + ":" + b + ":" + c + "." + d)
      == ClockMs(DigitsValue(a), DigitsValue(b), DigitsValue(c), DigitsValue(d))
  {
    TimeParts(a, b, c, d);
    var r := a + ":" + b + ":" + c + "." + d;
    assert r[..2] == a && r[3..5] == b && r[6..8] == c && r[9..] == d;
    assert AllDigits(r[..2]) && AllDigits(r[3..5]) && AllDigits(r[6..8]) && AllDigits(r[9..]);
    assert DigitsValue(r[..2]) == DigitsValue(a);
    assert DigitsValue(r[3..5]) == DigitsValue(b);
    assert DigitsValue(r[6..8]) == DigitsValue(c);
    assert DigitsValue(r[9..]) == DigitsValue(d);
    assert |r| == 12 && r[2] == ':' && r[5] == ':' && r[8] == '.';
  }

  lemma ClockOfTime(x: nat)
    requires x < MsPerDay
    ensures ClockMs(x / 3_600_000, x / 60_000 % 60, x / 1000 % 60, x % 1000) == Some(x)
  {
    TimeSum(x);
  }

  lemma TimeTextReadsBack(x: nat)
    requires x < MsPerDay
    ensures |TimeText(x)| == 12 && ParseTime(TimeText(x)) == Some(x)
  {
    var h, mi, sec, ms := x / 3_600_000, x / 60_000 % 60, x / 1000 % 60, x % 1000;
    TimeSum(x);
    ClockOfTime(x);
    var a, b, c, d := TwoDigits(h), TwoDigits(mi), TwoDigits(sec), ThreeDigits(ms);
    TwoDigitsReadsBack(h);
    TwoDigitsReadsBack(mi);
    TwoDigitsReadsBack(sec);
    ThreeDigitsReadsBack(ms);
    ParseTimeParts(a, b, c, d);
    assert ClockMs(DigitsValue(a), DigitsValue(b), DigitsValue(c), DigitsValue(d)) == Some(x);
    assert TimeText(x) == a + ":" + b + ":" + c + "." + d;
  }

  lemma DateTextReadsBack(d: Date)
    requires ValidDate(d) && d.year <= 9999
    ensures |IsoDate(d)| == 10 && ParseDate(IsoDate(d)) == Some(d)
  {
    IsoDateReadsBack(d);
  }

  lemma IsoParts(date: string, time: string)
    requires |date| == 10 && |time| == 12
    ensures var r := date + "T" + time + "Z";
      |r| == 24 && r[10] == 'T' && r[23] == 'Z' && r[..10] == date && r[11..23] == time
  {
  }

  lemma ParseIsoParts(date: string, time: string, d: Date, x: nat, t: nat)
    requires |date| == 10 && |time| == 12 && ParseDate(date) == Some(d) && ParseTime(time) == Some(x)
    requires DayNumber(d) * MsPerDay + x == t
    ensures ParseIso(date + "T" + time + "Z") == Some(t)
  {
    IsoParts(date, time);
  }

  /**
   * Reading back the ISO text of an instant before the year 10000 gives
   * the instant again: the Date constructor inverts toISOString.
   */
  lemma IsoRoundTrip(t: nat)
    requires t < FourDigitYearsEnd
    ensures |IsoText(t)| == 24 && ParseIso(IsoText(t)) == Some(t)
  {
    var day, ms := t / MsPerDay, t % MsPerDay;
    var d := CivilFromDays(day);
    FourDigitYear(t);
    var date, time := IsoDate(d), TimeText(ms);
    DateTextReadsBack(d);
    TimeTextReadsBack(ms);
    var text := date + "T" + time + "Z";
    assert DayNumber(d) * MsPerDay + ms == t;
    ParseIsoParts(date, time, d, ms, t);
    assert IsoText(t) == text;
  }
}
