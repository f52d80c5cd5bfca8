/**
 * The "<short month> <day>" label the transaction lists group by:
 * `toLocaleString("default", { month: "short" })` in the English locale,
 * a space, and `getDate()`.
 */
module DayLabels {
  import opened Js
  import opened Dates
  import opened NumberText

  /**
   * The English short month names, January being 1. They stand for
   * toLocaleString("default", { month: "short" }), whose text depends on the
   * runtime's default locale; the model fixes an English locale.
   */
  function ShortMonth(m: int): (r: string)
    ensures 1 <= m <= 12 ==> |r| == 3
  {
    if m == 1 then "Jan" else if m == 2 then "Feb" else if m == 3 then "Mar"
    else if m == 4 then "Apr" else if m == 5 then "May" else if m == 6 then "Jun"
    else if m == 7 then "Jul" else if m == 8 then "Aug" else if m == 9 then "Sep"
    else if m == 10 then "Oct" else if m == 11 then "Nov" else if m == 12 then "Dec"
    else ""
  }

  /** The group label of a date; it has no year. */
  function MonthDayLabel(d: Date): (r: string)
  {
    ShortMonth(d.month) + " " + WholeText(d.day)
  }

  lemma ShortMonthInjective(m1: int, m2: int)
    requires 1 <= m1 <= 12 && 1 <= m2 <= 12 && ShortMonth(m1) == ShortMonth(m2)
    ensures m1 == m2
  {
  }

  /**
   * Two dates of valid months share a label exactly when they share month and
   * day, whatever their years.
   */
  lemma MonthDayLabelInjective(a: Date, b: Date)
    requires 1 <= a.month <= 12 && 1 <= b.month <= 12 && a.day >= 0 && b.day >= 0
    ensures MonthDayLabel(a) == MonthDayLabel(b) <==> a.month == b.month && a.day == b.day
  {
    if MonthDayLabel(a) == MonthDayLabel(b) {
      var la, lb := MonthDayLabel(a), MonthDayLabel(b);
      assert la[..3] == ShortMonth(a.month) && lb[..3] == ShortMonth(b.month);
      ShortMonthInjective(a.month, b.month);
      assert la[4..] == NatText(a.day) && lb[4..] == NatText(b.day);
      NatTextValue(a.day);
      NatTextValue(b.day);
    }
  }
}
