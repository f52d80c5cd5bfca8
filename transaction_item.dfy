/**
 * One row of the transactions list: the colour class of its category, its
 * date as dd/mm/yyyy, its amount in rupees and its heading.
 */
module TransactionItem {
  import opened Wrappers
  import opened Js
  import opened Dates
  import opened NumberText
  import opened TransactionSlice

  const GrayClass: string := "bg-gray-100 text-gray-800"

  /** The categoryMap table. */
  function KnownCategoryClass(category: string): (r: Option<string>)
  {
    if category == "Food and Drink" then Some("bg-green-100 text-green-800")
    else if category == "Personal" then Some("bg-pink-100 text-pink-800")
    else if category == "Income" then Some("bg-yellow-100 text-yellow-800")
    else if category == "Transport" then Some("bg-purple-100 text-purple-800")
    else if category == "Shopping" then Some(GrayClass)
    else if category == "Entertainment" then Some("bg-orange-100 text-orange-800")
    else if category == "Health and Fitness" then Some("bg-blue-100 text-blue-800")
    else if category == "Bills and Utilities" then Some("bg-blue-100 text-blue-800")
    else None
  }

  /** getCategoryColor: the table's class, gray for any other category. */
  function CategoryColor(category: string): (r: string)
    ensures KnownCategoryClass(category).Some? ==> r == KnownCategoryClass(category).value
    ensures KnownCategoryClass(category).None? ==> r == GrayClass
  {
    match KnownCategoryClass(category)
    case Some(c) => c
    case None => GrayClass
  }

  /** Exactly the eight named categories are in the table. */
  lemma KnownCategories(category: string)
    ensures KnownCategoryClass(category).Some? <==>
      category == "Food and Drink" || category == "Personal" || category == "Income" || category == "Transport"
      || category == "Shopping" || category == "Entertainment" || category == "Health and Fitness"
      || category == "Bills and Utilities"
  {
  }

  /** The formatted date: day and 1-based month with two digits each, then the full year. */
  function DateText(d: Date): (r: string)
  {
    TwoDigits(d.day) + "/" + TwoDigits(d.month) + "/" + WholeText(d.year)
  }

  /**
   * Reading the date text of a date of year 0 or later back (every valid
   * date has day and month below 100): the
   * slashes sit at positions 2 and 5 and the three fields denote day, month
   * and year.
   */
  lemma DateTextReadsBack(d: Date)
    requires 0 <= d.day < 100 && 0 <= d.month < 100 && d.year >= 0
    ensures var r := DateText(d);
      |r| >= 7 && r[2] == '/' && r[5] == '/'
      && AllDigits(r[..2]) && DigitsValue(r[..2]) == d.day
      && AllDigits(r[3..5]) && DigitsValue(r[3..5]) == d.month
      && AllDigits(r[6..]) && DigitsValue(r[6..]) == d.year
  {
    TwoDigitsReadsBack(d.day);
    TwoDigitsReadsBack(d.month);
    var yy := WholeText(d.year);
    NatTextValue(d.year);
    assert yy == NatText(d.year) && AllDigits(yy) && DigitsValue(yy) == d.year;
    SlashedDigits(TwoDigits(d.day), TwoDigits(d.month), yy);
  }

  lemma SlashedParts(dd: string, mm: string, yy: string)
    requires |dd| == 2 && |mm| == 2
    ensures var r := dd + "/" + mm + "/" + yy;
      |r| == 6 + |yy| && r[2] == '/' && r[5] == '/' && r[..2] == dd && r[3..5] == mm && r[6..] == yy
  {
  }

  /** Three digit fields joined by slashes read back field by field. */
  lemma SlashedDigits(dd: string, mm: string, yy: string)
    requires |dd| == 2 && |mm| == 2 && |yy| >= 1 && AllDigits(dd) && AllDigits(mm) && AllDigits(yy)
    ensures var r := dd + "/" + mm + "/" + yy;
      |r| >= 7 && r[2] == '/' && r[5] == '/'
      && AllDigits(r[..2]) && DigitsValue(r[..2]) == DigitsValue(dd)
      && AllDigits(r[3..5]) && DigitsValue(r[3..5]) == DigitsValue(mm)
      && AllDigits(r[6..]) && DigitsValue(r[6..]) == DigitsValue(yy)
  {
    SlashedParts(dd, mm, yy);
  }

  /**
   * formatAmount: "PKR 0" for NaN, otherwise "PKR " and the absolute value,
   * with no decimals when whole and two otherwise.
   */
  function FormatAmount(value: Option<real>): (r: string)
  {
    match value
    case None => "PKR 0"
    case Some(x) => if IsWhole(x) then "PKR " + NatText(Abs(x).Floor) else "PKR " + Fixed2Text(Abs(x))
  }

  /** The amount is shown without sign: a number and its negation read the same, and no minus sign follows "PKR ". */
  lemma FormatAmountUnsigned(x: real)
    ensures FormatAmount(Some(x)) == FormatAmount(Some(-x))
    ensures var r := FormatAmount(Some(x)); |r| > 4 && r[..4] == "PKR " && '0' <= r[4] <= '9'
  {
    WholeNegation(x);
    assert Abs(-x) == Abs(x);
    if IsWhole(x) {
      PrefixedDigit(NatText(Abs(x).Floor));
    } else {
      CentsTextReadsBack(Cents(Abs(x)));
      assert Fixed2Text(Abs(x)) == CentsText(Cents(Abs(x)));
      PrefixedDigit(Fixed2Text(Abs(x)));
    }
  }

  lemma WholeNegation(x: real)
    ensures IsWhole(x) <==> IsWhole(-x)
  {
    if IsWhole(x) {
      assert -x == (-(x.Floor)) as real;
    }
    if IsWhole(-x) {
      assert x == (-((-x).Floor)) as real;
    }
  }

  lemma PrefixedDigit(s: string)
    requires |s| >= 1 && '0' <= s[0] <= '9'
    ensures var r := "PKR " + s; |r| > 4 && r[..4] == "PKR " && '0' <= r[4] <= '9'
  {
  }

  /** A whole amount's digits denote its absolute value. */
  lemma WholeAmountReadsBack(x: real)
    requires IsWhole(x)
    ensures var r := FormatAmount(Some(x));
      |r| > 4 && AllDigits(r[4..]) && DigitsValue(r[4..]) as real == Abs(x)
  {
    var n: nat := Abs(x).Floor;
    WholeAbs(x);
    var s := NatText(n);
    NatTextValue(n);
    var r := FormatAmount(Some(x));
    assert r == "PKR " + s;
    assert r[4..] == s;
  }

  lemma WholeAbs(x: real)
    requires IsWhole(x)
    ensures Abs(x) == Abs(x).Floor as real
  {
    var k := x.Floor;
    assert x == k as real;
    if x < 0.0 {
      assert Abs(x) == (-k) as real;
      assert (-k) as real == ((-k) as real).Floor as real;
    }
  }

  /** The heading `transaction.vendor || transaction.category`: None stands for undefined. */
  function Heading(t: Transaction): (r: Option<string>)
    ensures Truthy(t.vendor) ==> r == t.vendor
    ensures !Truthy(t.vendor) ==> r == t.category
  {
    if Truthy(t.vendor) then t.vendor else t.category
  }
}
