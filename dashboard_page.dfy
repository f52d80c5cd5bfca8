/**
 * The dashboard page: what it fetches on mount, which screen it shows, the
 * welcome (empty) state, the expense chart's data and total with their
 * sample fallbacks, and each budget's progress percentage. The dashboard
 * data is the value the store holds; None stands for no data.
 */
module DashboardPage {
  import opened Wrappers
  import opened Js
  import opened BudgetService
  import BudgetManager

  /** A recent transaction, as the history list uses it. */
  datatype RecentTransaction = RecentTransaction(transactionId: nat, amount: real, isCredit: bool, vendor: string,
                                                 categoryName: string)

  /** A budget of the month, as the budget list uses it. */
  datatype PageBudget = PageBudget(budgetId: nat, budgetLimit: real, categoryName: string, spent: real)

  /** One bar of the expense chart. */
  datatype Breakdown = Breakdown(categoryName: string, amount: real, percentage: real)

  /**
   * The dashboard data the page reads; None is a missing list, and a
   * missing or NaN total.
   */
  datatype DashboardData = DashboardData(recentTransactions: seq<RecentTransaction>, budgets: Option<seq<PageBudget>>,
                                         categoryBreakdown: Option<seq<Breakdown>>, totalMonthlyExpenses: Option<real>)

  /** What the mount effect starts. */
  datatype Effect = StartTimer(ms: nat) | FetchDashboard

  /** The mount effect: the 800 ms loading timer, and the data fetch only for a signed-in user. */
  function MountEffects(isLoggedIn: bool): (r: seq<Effect>)
    ensures StartTimer(800) in r
    ensures FetchDashboard in r <==> isLoggedIn
    ensures forall e :: e in r ==> e == StartTimer(800) || e == FetchDashboard
  {
    [StartTimer(800)] + (if isLoggedIn then [FetchDashboard] else [])
  }

  /** The screen the page renders. */
  datatype Screen = LoadingScreen | ErrorScreen(message: string) | Welcome | Overview

  /**
   * No data, or no recent transactions together with no (or no) budgets and
   * no (or an empty) breakdown.
   */
  predicate EmptyState(data: Option<DashboardData>)
  {
    data.None?
    || (|data.value.recentTransactions| == 0
        && (data.value.budgets.None? || |data.value.budgets.value| == 0)
        && (data.value.categoryBreakdown.None? || |data.value.categoryBreakdown.value| == 0))
  }

  /**
   * Loading (the store's or the page's timer) comes first, then a non-empty
   * error, then the welcome screen for the empty state, else the overview.
   */
  function ScreenOf(loading: bool, pageLoading: bool, error: Option<string>, data: Option<DashboardData>): (r: Screen)
    ensures r == LoadingScreen <==> loading || pageLoading
    ensures r.ErrorScreen? <==> !loading && !pageLoading && Truthy(error)
    ensures r.ErrorScreen? ==> r.message == error.value
    ensures r == Welcome <==> !loading && !pageLoading && !Truthy(error) && EmptyState(data)
    ensures r == Overview <==> !loading && !pageLoading && !Truthy(error) && !EmptyState(data)
  {
    if loading || pageLoading then LoadingScreen
    else if Truthy(error) then ErrorScreen(error.value)
    else if EmptyState(data) then Welcome
    else Overview
  }

  /** A page with any recent transaction, budget or breakdown row shows the overview once loaded without error. */
  lemma AnyContentShowsOverview(data: DashboardData, error: Option<string>)
    requires !Truthy(error)
    requires |data.recentTransactions| > 0 || (data.budgets.Some? && |data.budgets.value| > 0)
      || (data.categoryBreakdown.Some? && |data.categoryBreakdown.value| > 0)
    ensures ScreenOf(false, false, error, Some(data)) == Overview
  {
  }

  /** The two-row sample the chart shows without data. */
  const SampleExpenseData: seq<Breakdown> := [Breakdown("Food", 2500.0, 55.0), Breakdown("Rent", 2000.0, 45.0)]

  /** The total the chart shows when none is reported. */
  const FallbackTotal: real := 4500.0

  /** The chart's rows: the breakdown when there is a non-empty one, else the sample. */
  function ExpenseData(data: Option<DashboardData>): (r: seq<Breakdown>)
    ensures data.Some? && data.value.categoryBreakdown.Some? && |data.value.categoryBreakdown.value| > 0 ==>
      r == data.value.categoryBreakdown.value
    ensures data.None? || data.value.categoryBreakdown.None? || |data.value.categoryBreakdown.value| == 0 ==>
      r == SampleExpenseData
    ensures |r| > 0
  {
    if data.Some? && data.value.categoryBreakdown.Some? && |data.value.categoryBreakdown.value| > 0
    then data.value.categoryBreakdown.value
    else SampleExpenseData
  }

  /** `totalMonthlyExpenses || 4500`: a missing, NaN or zero total falls back. */
  function TotalExpense(data: Option<DashboardData>): (r: real)
    ensures data.Some? && data.value.totalMonthlyExpenses.Some? && data.value.totalMonthlyExpenses.value != 0.0 ==>
      r == data.value.totalMonthlyExpenses.value
    ensures data.None? || data.value.totalMonthlyExpenses.None? || data.value.totalMonthlyExpenses.value == 0.0 ==>
      r == FallbackTotal
    ensures r != 0.0
  {
    if data.Some? && data.value.totalMonthlyExpenses.Some? && data.value.totalMonthlyExpenses.value != 0.0
    then data.value.totalMonthlyExpenses.value
    else FallbackTotal
  }

  function SampleAmount(rows: seq<Breakdown>): real
  {
    if rows == [] then 0.0 else rows[0].amount + SampleAmount(rows[1..])
  }

  function SamplePercentage(rows: seq<Breakdown>): real
  {
    if rows == [] then 0.0 else rows[0].percentage + SamplePercentage(rows[1..])
  }

  /**
   * The sample is self-consistent with the fallback total: its amounts add
   * up to 4500 and its percentages to 100. With no data at all the chart
   * shows exactly that pair.
   */
  lemma SampleMatchesFallback()
    ensures SampleAmount(SampleExpenseData) == FallbackTotal
    ensures SamplePercentage(SampleExpenseData) == 100.0
    ensures ExpenseData(None) == SampleExpenseData && TotalExpense(None) == FallbackTotal
  {
    var s := SampleExpenseData;
    assert s[1..][1..] == [];
  }

  /** calculatePercentage: 0 for a zero limit, else the rounded percentage capped at 100. */
  function CalculatePercentage(spent: real, limit: real): (r: int)
    ensures limit == 0.0 ==> r == 0
    ensures limit != 0.0 ==> r == (if Round(spent / limit * 100.0) < 100 then Round(spent / limit * 100.0) else 100)
    ensures r <= 100
  {
    if limit == 0.0 then 0
    else
      var p := Round(spent / limit * 100.0);
      if p < 100 then p else 100
  }

  /** With a positive limit and nothing negative spent, the percentage lies in 0..100 and grows with spending. */
  lemma PercentageBounds(spent: real, more: real, limit: real)
    requires limit > 0.0 && 0.0 <= spent <= more
    ensures 0 <= CalculatePercentage(spent, limit) <= CalculatePercentage(more, limit) <= 100
  {
    var x, y := spent / limit * 100.0, more / limit * 100.0;
    assert spent / limit <= more / limit;
    RoundOfInt(0);
    RoundMonotone(0.0, x);
    RoundMonotone(x, y);
  }

  /**
   * For a budget with a non-zero limit, the dashboard's percentage is the
   * width of the budget manager's row bar for the same budget.
   */
  lemma PercentageIsBarWidth(b: Budget, alertThreshold: real)
    requires b.budgetLimit != 0.0
    ensures BudgetManager.RowOf(b, alertThreshold).barWidth == BudgetManager.Finite(CalculatePercentage(b.spent, b.budgetLimit))
  {
  }

  /** A budget's bar: its percentage, drawn as 8 px wide (None) when it is not above 0. */
  function BarWidth(percent: int): (r: Option<int>)
    ensures r.Some? <==> percent > 0
    ensures r.Some? ==> r.value == percent
  {
    if percent > 0 then Some(percent) else None
  }

  /** The history entry's label: the vendor, or the category when there is none. */
  function TransactionLabel(t: RecentTransaction): (r: string)
    ensures t.vendor != "" ==> r == t.vendor
    ensures t.vendor == "" ==> r == t.categoryName
  {
    if t.vendor != "" then t.vendor else t.categoryName
  }
}
