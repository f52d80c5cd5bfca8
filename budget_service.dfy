/**
 * The two pure helpers of the client's budget service: the statistics over
 * the listed budgets and the text of the current month's first day.
 */
module BudgetService {
  import opened Js

  /** A budget as the client receives it. */
  datatype Budget = Budget(budgetId: nat, categoryId: nat, categoryName: string, budgetLimit: real,
                           monthStart: string, spent: real, alert: bool)

  /** The sum of budget_limit. */
  function TotalLimit(bs: seq<Budget>): real
  {
    if bs == [] then 0.0 else TotalLimit(bs[..|bs| - 1]) + bs[|bs| - 1].budgetLimit
  }

  /** The sum of spent. */
  function TotalSpent(bs: seq<Budget>): real
  {
    if bs == [] then 0.0 else TotalSpent(bs[..|bs| - 1]) + bs[|bs| - 1].spent
  }

  datatype BudgetStats = BudgetStats(totalBudget: real, totalSpent: real, remainingBudget: real, spentPercentage: int)

  /** calculateBudgetStats */
  function CalculateBudgetStats(bs: seq<Budget>): (s: BudgetStats)
    ensures s.totalBudget == TotalLimit(bs) && s.totalSpent == TotalSpent(bs)
    ensures s.remainingBudget == s.totalBudget - s.totalSpent
    ensures s.totalBudget <= 0.0 ==> s.spentPercentage == 0
    ensures s.totalBudget > 0.0 ==> s.spentPercentage == Round(s.totalSpent / s.totalBudget * 100.0)
  {
    var totalBudget := TotalLimit(bs);
    var totalSpent := TotalSpent(bs);
    BudgetStats(totalBudget, totalSpent, totalBudget - totalSpent,
                if totalBudget > 0.0 then Round((totalSpent / totalBudget) * 100.0) else 0)
  }

  /** No budgets give all four statistics 0. */
  lemma EmptyStats()
    ensures CalculateBudgetStats([]) == BudgetStats(0.0, 0.0, 0.0, 0)
  {
  }

  /** When no budget is overspent the total spent stays within the total limit. */
  lemma {:induction false} SpentWithinLimits(bs: seq<Budget>)
    requires forall k :: 0 <= k < |bs| ==> 0.0 <= bs[k].spent <= bs[k].budgetLimit
    ensures 0.0 <= TotalSpent(bs) <= TotalLimit(bs)
  {
    if bs != [] {
      SpentWithinLimits(bs[..|bs| - 1]);
    }
  }

  /** When no budget is overspent, the spent percentage lies in 0..100 and the remainder is not negative. */
  lemma StatsBounded(bs: seq<Budget>)
    requires forall k :: 0 <= k < |bs| ==> 0.0 <= bs[k].spent <= bs[k].budgetLimit
    ensures 0 <= CalculateBudgetStats(bs).spentPercentage <= 100
    ensures CalculateBudgetStats(bs).remainingBudget >= 0.0
  {
    SpentWithinLimits(bs);
    var spent, limit := TotalSpent(bs), TotalLimit(bs);
    RoundOfInt(0);
    RoundOfInt(100);
    if limit > 0.0 {
      var x := spent / limit * 100.0;
      assert spent / limit <= 1.0;
      RoundMonotone(0.0, x);
      RoundMonotone(x, 100.0);
    }
  }

  /** getCurrentMonthStart for a clock reading in the given year and 1-based month: "YYYY-MM-01". */
  function CurrentMonthStart(year: nat, month: nat): (r: string)
    requires 1 <= month <= 12
    ensures |r| == |NatText(year)| + 6
    ensures r[|r| - 6] == '-' && r[|r| - 3..] == "-01"
  {
    NatText(year) + "-" + Pad2(month) + "-01"
  }

  /** The text reads back as the year, the month and day 1. */
  lemma CurrentMonthStartReadsBack(year: nat, month: nat)
    requires 1 <= month <= 12
    ensures var r := CurrentMonthStart(year, month);
      var n := |r|;
      (forall i :: 0 <= i < n - 6 ==> '0' <= r[i] <= '9')
      && DigitsValue(r[..n - 6]) == year
      && '0' <= r[n - 5] <= '9' && '0' <= r[n - 4] <= '9'
      && DigitsValue(r[n - 5..n - 3]) == month
  {
    var r := CurrentMonthStart(year, month);
    var n := |r|;
    assert r[..n - 6] == NatText(year);
    assert r[n - 5..n - 3] == Pad2(month);
    NatTextValue(year);
  }
}
