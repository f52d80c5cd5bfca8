/**
 * Numbers as the client shows and reads them: the text of an amount field
 * together with what Number.parseFloat reads from it, and the decimal text
 * Number.prototype.toFixed writes with no or two decimals.
 */
module NumberText {
  import opened Wrappers
  import opened Js

  /**
   * The text of an amount field. Text the user typed is kept with the number
   * Number.parseFloat reads from it (None for NaN); a number copied into the
   * field with toString is kept as that number, which parseFloat reads back.
   */
  datatype AmountText = Typed(text: string, parsed: Option<real>) | Shown(number: real)

  /** Number.parseFloat of the field; None is NaN. */
  function ParsedAmount(a: AmountText): (r: Option<real>)
    ensures a.Shown? ==> r == Some(a.number)
    ensures a.Typed? ==> r == a.parsed
  {
    match a
    case Typed(_, p) => p
    case Shown(x) => Some(x)
  }

  /** The empty field, which parseFloat reads as NaN. */
  const Blank: AmountText := Typed("", None)

  /** `x % 1 === 0` */
  predicate IsWhole(x: real)
  {
    x == x.Floor as real
  }

  function Abs(x: real): (r: real)
    ensures r >= 0.0 && (r == x || r == -x)
  {
    if x < 0.0 then -x else x
  }

  /** toFixed(0) of a whole number: its digits, after a minus sign when negative. */
  function WholeText(n: int): (r: string)
    ensures n >= 0 ==> r == NatText(n)
    ensures n < 0 ==> r == "-" + NatText(-n)
  {
    if n < 0 then "-" + NatText(-n) else NatText(n)
  }

  /** The number of hundredths toFixed(2) writes for x: |x| × 100 rounded, ties going up. */
  function Cents(x: real): (n: nat)
    ensures Abs(x) * 100.0 - 0.5 < n as real <= Abs(x) * 100.0 + 0.5
  {
    var c := Round(Abs(x) * 100.0);
    assert c >= 0 by {
      RoundMonotone(0.0, Abs(x) * 100.0);
      RoundOfInt(0);
    }
    c as nat
  }

  /** toFixed(2): a minus sign for a negative x, then the unsigned text of its hundredths. */
  function Fixed2Text(x: real): (r: string)
  {
    (if x < 0.0 then "-" else "") + CentsText(Cents(x))
  }

  /** The unsigned toFixed(2) text of n hundredths: the whole part, a point and two digits. */
  function CentsText(n: nat): string
  {
    NatText(n / 100) + "." + Pad2(n % 100)
  }

  /** The unsigned text starts with a digit, has the point three places from the end, and denotes n hundredths. */
  lemma CentsTextReadsBack(n: nat)
    ensures var b := CentsText(n);
      |b| >= 4 && '0' <= b[0] <= '9' && b[|b| - 3] == '.'
      && AllDigits(b[..|b| - 3]) && AllDigits(b[|b| - 2..])
      && DigitsValue(b[..|b| - 3]) * 100 + DigitsValue(b[|b| - 2..]) == n
  {
    var whole, frac := NatText(n / 100), Pad2(n % 100);
    var b := CentsText(n);
    assert b[..|b| - 3] == whole;
    assert b[|b| - 2..] == frac;
    NatTextValue(n / 100);
  }

  /**
   * Reading Fixed2Text back: the sign marks a negative x, the whole part and
   * the two decimals denote the rounded hundredths, and the point sits three
   * places from the end.
   */
  lemma Fixed2TextReadsBack(x: real)
    ensures var r := Fixed2Text(x);
      var body := if x < 0.0 then r[1..] else r;
      |r| >= 4 && (r[0] == '-' <==> x < 0.0)
      && |body| >= 4 && body[|body| - 3] == '.'
      && AllDigits(body[..|body| - 3]) && AllDigits(body[|body| - 2..])
      && DigitsValue(body[..|body| - 3]) * 100 + DigitsValue(body[|body| - 2..]) == Cents(x)
  {
    var r, b := Fixed2Text(x), CentsText(Cents(x));
    CentsTextReadsBack(Cents(x));
    if x < 0.0 {
      assert r == "-" + b;
      assert r[0] == '-' && r[1..] == b;
    } else {
      assert r == b;
    }
  }

  /** `n.toString().padStart(2, "0")` */
  function TwoDigits(n: int): (r: string)
  {
    PadStart(WholeText(n), 2, '0')
  }

  /** A day or month number below 100 is written as exactly two digits denoting it. */
  lemma TwoDigitsReadsBack(n: int)
    requires 0 <= n < 100
    ensures |TwoDigits(n)| == 2
    ensures AllDigits(TwoDigits(n))
    ensures DigitsValue(TwoDigits(n)) == n
  {
    ShortNatText(n);
    PaddedNat(n, 2);
  }

  /** The digit counts of numbers below 10, 100, 1000 and 10000. */
  lemma {:induction false} ShortNatText(n: nat)
    ensures n < 10 ==> |NatText(n)| == 1
    ensures n < 100 ==> |NatText(n)| <= 2
    ensures n < 1000 ==> |NatText(n)| <= 3
    ensures n < 10000 ==> |NatText(n)| <= 4
    decreases n
  {
    if n >= 10 {
      ShortNatText(n / 10);
    }
  }
}
