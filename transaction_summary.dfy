/**
 * The totals card of the transactions page: net worth, income and expenses
 * over the listed transactions, and the dollar text each total is shown as.
 */
module TransactionSummary {
  import opened Wrappers
  import opened Js
  import opened NumberText
  import opened Sorting
  import opened TransactionSlice

  /** `Number(transaction.amount) || 0`: NaN and 0 both count as 0. */
  function AmountOrZero(t: Transaction): (r: real)
    ensures t.amount.None? ==> r == 0.0
    ensures t.amount.Some? ==> r == t.amount.value
  {
    match t.amount
    case Some(v) => v
    case None => 0.0
  }

  predicate IsCredit(t: Transaction)
  {
    t.transactionType == "credit"
  }

  predicate IsDebit(t: Transaction)
  {
    t.transactionType == "debit"
  }

  /** calculateNetWorth: credits add their amount, every other type subtracts it. */
  function NetWorth(ts: seq<Transaction>): real
  {
    if ts == [] then 0.0
    else (if IsCredit(ts[0]) then AmountOrZero(ts[0]) else -AmountOrZero(ts[0])) + NetWorth(ts[1..])
  }

  /** The sum of the amounts, NaN counting as 0. */
  function SumAmounts(ts: seq<Transaction>): real
  {
    if ts == [] then 0.0 else AmountOrZero(ts[0]) + SumAmounts(ts[1..])
  }

  /** calculateIncome: the credits' amounts added up. */
  function Income(ts: seq<Transaction>): real
  {
    SumAmounts(Filter(ts, IsCredit))
  }

  /** calculateExpenses: the debits' amounts added up. */
  function Expenses(ts: seq<Transaction>): real
  {
    SumAmounts(Filter(ts, IsDebit))
  }

  /**
   * Net worth is income minus expenses as long as every transaction is a
   * credit or a debit; a transaction of any other type lowers net worth
   * while counting in neither total.
   */
  lemma {:induction false} NetWorthIsIncomeMinusExpenses(ts: seq<Transaction>)
    ensures NetWorth(ts) == Income(ts) - Expenses(ts) - OtherAmounts(ts)
    decreases |ts|
  {
    if ts != [] {
      NetWorthIsIncomeMinusExpenses(ts[1..]);
      assert Filter(ts, IsCredit) == (if IsCredit(ts[0]) then [ts[0]] else []) + Filter(ts[1..], IsCredit);
      assert Filter(ts, IsDebit) == (if IsDebit(ts[0]) then [ts[0]] else []) + Filter(ts[1..], IsDebit);
      SumAppend(if IsCredit(ts[0]) then [ts[0]] else [], Filter(ts[1..], IsCredit));
      SumAppend(if IsDebit(ts[0]) then [ts[0]] else [], Filter(ts[1..], IsDebit));
    }
  }

  /** The amounts of the transactions that are neither credits nor debits. */
  function OtherAmounts(ts: seq<Transaction>): real
  {
    if ts == [] then 0.0
    else (if IsCredit(ts[0]) || IsDebit(ts[0]) then 0.0 else AmountOrZero(ts[0])) + OtherAmounts(ts[1..])
  }

  lemma NetWorthOfCreditsAndDebits(ts: seq<Transaction>)
    requires forall i :: 0 <= i < |ts| ==> IsCredit(ts[i]) || IsDebit(ts[i])
    ensures NetWorth(ts) == Income(ts) - Expenses(ts)
  {
    NetWorthIsIncomeMinusExpenses(ts);
    OtherAmountsZero(ts);
  }

  lemma {:induction false} OtherAmountsZero(ts: seq<Transaction>)
    requires forall i :: 0 <= i < |ts| ==> IsCredit(ts[i]) || IsDebit(ts[i])
    ensures OtherAmounts(ts) == 0.0
    decreases |ts|
  {
    if ts != [] {
      OtherAmountsZero(ts[1..]);
    }
  }

  lemma {:induction false} SumAppend(a: seq<Transaction>, b: seq<Transaction>)
    ensures SumAmounts(a + b) == SumAmounts(a) + SumAmounts(b)
    decreases |a|
  {
    if a != [] {
      assert (a + b)[1..] == a[1..] + b;
      SumAppend(a[1..], b);
    } else {
      assert a + b == b;
    }
  }

  lemma {:induction false} NetWorthAppend(a: seq<Transaction>, b: seq<Transaction>)
    ensures NetWorth(a + b) == NetWorth(a) + NetWorth(b)
    decreases |a|
  {
    if a != [] {
      assert (a + b)[1..] == a[1..] + b;
      NetWorthAppend(a[1..], b);
    } else {
      assert a + b == b;
    }
  }

  lemma NaNNetWorth(a: seq<Transaction>, t: Transaction, b: seq<Transaction>)
    requires t.amount.None?
    ensures NetWorth(a + [t] + b) == NetWorth(a + b)
  {
    NetWorthAppend(a + [t], b);
    NetWorthAppend(a, [t]);
    NetWorthAppend(a, b);
    assert NetWorth([t]) == 0.0;
  }

  lemma NaNFiltered(a: seq<Transaction>, t: Transaction, b: seq<Transaction>, p: Transaction -> bool)
    requires t.amount.None?
    ensures SumAmounts(Filter(a + [t] + b, p)) == SumAmounts(Filter(a + b, p))
  {
    FilterAppend(a + [t], b, p);
    FilterAppend(a, [t], p);
    FilterAppend(a, b, p);
    var fa, ft, fb := Filter(a, p), Filter([t], p), Filter(b, p);
    assert SumAmounts(ft) == 0.0;
    SumAppend(fa + ft, fb);
    SumAppend(fa, ft);
    SumAppend(fa, fb);
  }

  /** A transaction whose amount is not a number changes none of the three totals. */
  lemma NaNAmountCountsAsZero(a: seq<Transaction>, t: Transaction, b: seq<Transaction>)
    requires t.amount.None?
    ensures NetWorth(a + [t] + b) == NetWorth(a + b)
    ensures Income(a + [t] + b) == Income(a + b)
    ensures Expenses(a + [t] + b) == Expenses(a + b)
  {
    NaNNetWorth(a, t, b);
    NaNFiltered(a, t, b, IsCredit);
    NaNFiltered(a, t, b, IsDebit);
  }

  lemma {:induction false} FilterAppend(a: seq<Transaction>, b: seq<Transaction>, p: Transaction -> bool)
    ensures Filter(a + b, p) == Filter(a, p) + Filter(b, p)
    decreases |a|
  {
    if a != [] {
      assert (a + b)[1..] == a[1..] + b;
      FilterAppend(a[1..], b, p);
    } else {
      assert a + b == b;
    }
  }

  /**
   * formatCurrency: "$0" for NaN, the whole number with no decimals, any
   * other number with two decimals (toFixed), after a dollar sign.
   */
  function FormatCurrency(value: Option<real>): (r: string)
  {
    match value
    case None => "$0"
    case Some(x) => if IsWhole(x) then "$" + WholeText(x.Floor) else "$" + Fixed2Text(x)
  }

  /**
   * Reading the dollar text of a whole amount back: "$", a minus sign exactly
   * for a negative amount, then digits with no point that denote |x|.
   */
  lemma WholeCurrencyReadsBack(x: real)
    requires IsWhole(x)
    ensures var r := FormatCurrency(Some(x));
      var digits := if x < 0.0 then r[2..] else r[1..];
      |r| >= 2 && r[0] == '$' && (r[1] == '-' <==> x < 0.0)
      && AllDigits(digits) && DigitsValue(digits) as real == Abs(x)
  {
    var r := FormatCurrency(Some(x));
    var n := x.Floor;
    if x < 0.0 {
      NatTextValue(-n);
      assert r == "$" + "-" + NatText(-n);
      assert r[2..] == NatText(-n);
    } else {
      NatTextValue(n);
      assert r == "$" + NatText(n);
      assert r[1..] == NatText(n);
    }
  }

  /**
   * Reading the dollar text of any other amount back: "$", a minus sign
   * exactly for a negative amount, then a point three places from the end,
   * the digits denoting |x| in rounded hundredths.
   */
  lemma FractionCurrencyReadsBack(x: real)
    requires !IsWhole(x)
    ensures var r := FormatCurrency(Some(x));
      var body := if x < 0.0 then r[2..] else r[1..];
      |r| >= 2 && r[0] == '$' && (r[1] == '-' <==> x < 0.0)
      && |body| >= 4 && body[|body| - 3] == '.'
      && AllDigits(body[..|body| - 3]) && AllDigits(body[|body| - 2..])
      && DigitsValue(body[..|body| - 3]) * 100 + DigitsValue(body[|body| - 2..]) == Cents(x)
  {
    var r := FormatCurrency(Some(x));
    var b := CentsText(Cents(x));
    CentsTextReadsBack(Cents(x));
    if x < 0.0 {
      assert r == "$" + ("-" + b);
      assert r[2..] == b;
    } else {
      assert r == "$" + b;
      assert r[1..] == b;
    }
  }
}
