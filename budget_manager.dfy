/**
 * The budget manager screen that keeps its own state: the budgets with their
 * colours, the edit / add / income / alert-threshold forms, and what each
 * handler checks before it calls the budget service. The service's answers
 * are parameters (`requestFails`, the refetched data); the month start of a
 * new category and the random colours are parameters too. The row metrics
 * and the month's progress bar defined here are shared with the store-backed
 * budget manager.
 */
module BudgetManager {
  import opened Wrappers
  import opened Js
  import opened BudgetService
  import opened Lists
  import opened NumberText
  import opened BudgetSlice

  /**
   * A JavaScript number that Math.round can give back: an integer, an
   * infinity, or NaN.
   */
  datatype Percent = Finite(n: int) | Infinite(positive: bool) | NotANumber

  /**
   * `Math.round((spent / budget_limit) * 100)`: dividing by a zero limit
   * gives an infinity of spent's sign, or NaN when nothing is spent.
   */
  function PercentUsed(spent: real, limit: real): (r: Percent)
    ensures limit != 0.0 ==> r == Finite(Round(spent / limit * 100.0))
    ensures limit == 0.0 ==> (r.Infinite? <==> spent != 0.0) && (r.Infinite? ==> (r.positive <==> spent > 0.0))
    ensures limit == 0.0 && spent == 0.0 ==> r.NotANumber?
  {
    if limit != 0.0 then Finite(Round(spent / limit * 100.0))
    else if spent > 0.0 then Infinite(true)
    else if spent < 0.0 then Infinite(false)
    else NotANumber
  }

  /** `percent >= threshold`; NaN compares false and +Infinity above every number. */
  predicate AtLeast(p: Percent, threshold: real)
  {
    match p
    case Finite(n) => n as real >= threshold
    case Infinite(positive) => positive
    case NotANumber => false
  }

  /** `Math.min(percentUsed, 100)`: the bar never goes past 100, NaN stays NaN. */
  function BarWidth(p: Percent): (r: Percent)
    ensures p.Finite? ==> r == Finite(if p.n < 100 then p.n else 100)
    ensures p == Infinite(true) ==> r == Finite(100)
    ensures p == Infinite(false) ==> r == p
    ensures p.NotANumber? ==> r.NotANumber?
  {
    match p
    case Finite(n) => Finite(if n < 100 then n else 100)
    case Infinite(positive) => if positive then Finite(100) else p
    case NotANumber => p
  }

  /** What a row of the per-category table shows. */
  datatype RowView = RowView(percentUsed: Percent, remaining: real, isOverBudget: bool, isNearLimit: bool,
                             barWidth: Percent, remainingSign: string, remainingAmount: real)

  /**
   * A row: the rounded percentage used, the remaining amount, over budget
   * when it is negative, near the limit when the percentage reaches the
   * alert threshold, and the remaining amount shown as a sign and
   * Math.abs of it ("Limit exceeded!" goes with the over-budget flag).
   */
  function RowOf(b: Budget, alertThreshold: real): (r: RowView)
    ensures r.percentUsed == PercentUsed(b.spent, b.budgetLimit)
    ensures r.remaining == b.budgetLimit - b.spent
    ensures r.isOverBudget <==> b.spent > b.budgetLimit
    ensures r.isNearLimit <==> AtLeast(r.percentUsed, alertThreshold)
    ensures r.barWidth == BarWidth(r.percentUsed)
    ensures r.remainingSign == (if r.isOverBudget then "-" else "") && r.remainingAmount >= 0.0
    ensures (if r.isOverBudget then -r.remainingAmount else r.remainingAmount) == r.remaining
  {
    var percentUsed := PercentUsed(b.spent, b.budgetLimit);
    var remaining := b.budgetLimit - b.spent;
    RowView(percentUsed, remaining, remaining < 0.0, AtLeast(percentUsed, alertThreshold), BarWidth(percentUsed),
            if remaining < 0.0 then "-" else "", Abs(remaining))
  }

  /**
   * A budget with a positive limit whose spending stays within it uses
   * between 0 and 100 percent, and its bar is exactly that wide.
   */
  lemma RowWithinLimit(b: Budget, alertThreshold: real)
    requires b.budgetLimit > 0.0 && 0.0 <= b.spent <= b.budgetLimit
    ensures var r := RowOf(b, alertThreshold);
      r.percentUsed.Finite? && 0 <= r.percentUsed.n <= 100 && r.barWidth == r.percentUsed && !r.isOverBudget
  {
    var x := b.spent / b.budgetLimit * 100.0;
    assert b.spent / b.budgetLimit <= 1.0;
    RoundOfInt(0);
    RoundOfInt(100);
    RoundMonotone(0.0, x);
    RoundMonotone(x, 100.0);
  }

  /**
   * With a positive limit and a threshold of at most 100 percent, an
   * overspent budget is always flagged near its limit and fills its bar.
   */
  lemma OverBudgetIsNearLimit(b: Budget, alertThreshold: real)
    requires b.budgetLimit > 0.0 && b.spent > b.budgetLimit && alertThreshold <= 100.0
    ensures var r := RowOf(b, alertThreshold); r.isOverBudget && r.isNearLimit && r.barWidth == Finite(100)
  {
    var x := b.spent / b.budgetLimit * 100.0;
    assert b.spent / b.budgetLimit > 1.0;
    RoundOfInt(100);
    RoundMonotone(100.0, x);
  }

  /** The month's progress bar: the filled part, the white rest (the store-backed screen only) and the alert. */
  datatype Progress = Progress(filled: int, rest: int, alertShown: bool)

  /**
   * The filled part is spentPercentage wide and the rest 100 minus it; the
   * alert banner, and the red colour, show iff spentPercentage reaches the
   * threshold.
   */
  function ProgressOf(spentPercentage: int, alertThreshold: real): (r: Progress)
    ensures r.filled == spentPercentage && r.filled + r.rest == 100
    ensures r.alertShown <==> spentPercentage as real >= alertThreshold
  {
    Progress(spentPercentage, 100 - spentPercentage, spentPercentage as real >= alertThreshold)
  }

  /** When no budget is overspent both parts of the bar have a width between 0 and 100. */
  lemma ProgressWithinBar(bs: seq<Budget>, alertThreshold: real)
    requires forall k :: 0 <= k < |bs| ==> 0.0 <= bs[k].spent <= bs[k].budgetLimit
    ensures var p := ProgressOf(CalculateBudgetStats(bs).spentPercentage, alertThreshold);
      0 <= p.filled <= 100 && 0 <= p.rest <= 100
  {
    StatsBounded(bs);
  }

  /** A budget amount handleSave and handleAddCategory accept: a number above zero. */
  predicate ValidBudgetAmount(amount: Option<real>)
  {
    amount.Some? && amount.value > 0.0
  }

  /** An income handleSaveIncome accepts: a number, zero included. */
  predicate ValidIncome(amount: Option<real>)
  {
    amount.Some? && amount.value >= 0.0
  }

  /** An alert threshold handleSaveAlertSettings accepts: 0 to 200 percent, both ends included. */
  predicate ValidThreshold(threshold: real)
  {
    0.0 <= threshold <= 200.0
  }

  /** Zero is an acceptable income but not an acceptable budget; every acceptable budget is an acceptable income. */
  lemma ZeroIncomeOnly(amount: Option<real>)
    ensures ValidIncome(Some(0.0)) && !ValidBudgetAmount(Some(0.0))
    ensures ValidBudgetAmount(amount) ==> ValidIncome(amount)
    ensures ValidIncome(amount) && !ValidBudgetAmount(amount) ==> amount == Some(0.0)
  {
  }

  /** A category limit of a setBudgets call. */
  datatype CategoryLimit = CategoryLimit(category: string, limit: real)

  /** A setBudgets call: the month and its category limits. */
  datatype SetBudgetsCall = SetBudgetsCall(monthStart: string, limits: seq<CategoryLimit>)

  const LoadFailed: string := "Failed to load budgets. Please try again later."
  const AmountInvalid: string := "Please enter a valid budget amount greater than zero."
  const UpdateFailed: string := "Failed to update budget. Please try again."
  const DeleteFailed: string := "Failed to delete budget. Please try again."
  const NameMissing: string := "Please enter a category name."
  const AddFailed: string := "Failed to add category. Please try again."
  const IncomeInvalid: string := "Please enter a valid income amount."
  const IncomeFailed: string := "Failed to update income. Please try again."
  const ThresholdInvalid: string := "Please enter a valid threshold between 0 and 200."

  /** The screen's state. */
  class BudgetManagerContent {
    var budgets: seq<ColoredBudget>
    var loading: bool
    var error: Option<string>
    var editingIndex: Option<nat>
    var newBudgetAmount: AmountText
    var showAddCategory: bool
    var newCategory: NewCategory
    var monthlyIncome: real
    var editingIncome: bool
    var newIncomeAmount: AmountText
    var showAlertSettings: bool
    var alertThreshold: real

    /** The useState initial values. */
    constructor ()
      ensures budgets == [] && loading && error.None? && editingIndex.None? && newBudgetAmount == Blank
      ensures !showAddCategory && newCategory == EmptyCategory && monthlyIncome == 0.0 && !editingIncome
      ensures newIncomeAmount == Blank && !showAlertSettings && alertThreshold == 100.0
    {
      budgets, loading, error, editingIndex, newBudgetAmount := [], true, None, None, Blank;
      showAddCategory, newCategory, monthlyIncome, editingIncome := false, EmptyCategory, 0.0, false;
      newIncomeAmount, showAlertSettings, alertThreshold := Blank, false, 100.0;
    }

    /**
     * fetchBudgets: `reply` is getBudgets' answer, None when it fails. The
     * budgets get their colours (the k-th random colour being draw(k)), a
     * falsy income becomes 0 and a falsy threshold 100, and the error is
     * cleared; a failure keeps everything and sets the load error. Loading
     * is off afterwards.
     */
    method FetchBudgets(reply: Option<BudgetData>, draw: nat -> string)
      modifies this`budgets, this`monthlyIncome, this`alertThreshold, this`error, this`loading
      ensures reply.Some? ==> budgets == WithColors(reply.value.budgets, draw) && error.None?
      ensures reply.Some? ==> monthlyIncome == OrDefault(reply.value.monthlyIncome, 0.0)
      ensures reply.Some? ==> alertThreshold == OrDefault(reply.value.alertThreshold, 100.0)
      ensures reply.None? ==> budgets == old(budgets) && monthlyIncome == old(monthlyIncome)
      ensures reply.None? ==> alertThreshold == old(alertThreshold) && error == Some(LoadFailed)
      ensures !loading
    {
      loading := true;
      match reply {
        case None =>
          error := Some(LoadFailed);
        case Some(data) =>
          budgets := WithColors(data.budgets, draw);
          monthlyIncome := OrDefault(data.monthlyIncome, 0.0);
          alertThreshold := OrDefault(data.alertThreshold, 100.0);
          error := None;
      }
      loading := false;
    }

    /** handleEdit, from a row's edit button: the row's limit is copied into the amount field. */
    method HandleEdit(index: nat)
      requires index < |budgets|
      modifies this`editingIndex, this`newBudgetAmount
      ensures editingIndex == Some(index) && newBudgetAmount == Shown(budgets[index].budget.budgetLimit)
    {
      editingIndex, newBudgetAmount := Some(index), Shown(budgets[index].budget.budgetLimit);
    }

    method SetNewBudgetAmount(text: AmountText)
      modifies this`newBudgetAmount
      ensures newBudgetAmount == text
    {
      newBudgetAmount := text;
    }

    /**
     * handleSave, from a row's save button. An amount that is not a number
     * above zero only sets the amount error and makes no call. Otherwise it
     * sets that budget's category to the amount for the budget's month; on
     * success only that row's limit changes and editing ends, on failure the
     * list stays and the update error shows.
     */
    method HandleSave(index: nat, requestFails: bool) returns (call: Option<SetBudgetsCall>)
      requires index < |budgets|
      modifies this`budgets, this`editingIndex, this`error
      ensures var amount := ParsedAmount(newBudgetAmount);
        !ValidBudgetAmount(amount) ==>
          call.None? && error == Some(AmountInvalid) && budgets == old(budgets) && editingIndex == old(editingIndex)
      ensures var amount := ParsedAmount(newBudgetAmount);
        ValidBudgetAmount(amount) ==>
          call == Some(SetBudgetsCall(old(budgets)[index].budget.monthStart,
                                      [CategoryLimit(old(budgets)[index].budget.categoryName, amount.value)]))
      ensures var amount := ParsedAmount(newBudgetAmount);
        ValidBudgetAmount(amount) && !requestFails ==>
          budgets == WithLimit(old(budgets), index, amount.value) && editingIndex.None? && error.None?
      ensures var amount := ParsedAmount(newBudgetAmount);
        ValidBudgetAmount(amount) && requestFails ==>
          budgets == old(budgets) && editingIndex == old(editingIndex) && error == Some(UpdateFailed)
    {
      var amount := ParsedAmount(newBudgetAmount);
      if !ValidBudgetAmount(amount) {
        error := Some(AmountInvalid);
        return None;
      }
      var budget := budgets[index].budget;
      call := Some(SetBudgetsCall(budget.monthStart, [CategoryLimit(budget.categoryName, amount.value)]));
      if requestFails {
        error := Some(UpdateFailed);
      } else {
        budgets := WithLimit(budgets, index, amount.value);
        editingIndex, error := None, None;
      }
    }

    /**
     * handleDelete, from a row's delete button: deletes that budget's id; on
     * success exactly that row goes, on failure the delete error shows.
     */
    method HandleDelete(index: nat, requestFails: bool) returns (deletedId: nat)
      requires index < |budgets|
      modifies this`budgets, this`error
      ensures deletedId == old(budgets)[index].budget.budgetId
      ensures !requestFails ==> budgets == old(budgets)[..index] + old(budgets)[index + 1..] && error.None?
      ensures requestFails ==> budgets == old(budgets) && error == Some(DeleteFailed)
    {
      deletedId := budgets[index].budget.budgetId;
      if requestFails {
        error := Some(DeleteFailed);
      } else {
        WithoutIndexSplice(budgets, index);
        budgets := WithoutIndex(budgets, index);
        error := None;
      }
    }

    method SetShowAddCategory(show: bool)
      modifies this`showAddCategory
      ensures showAddCategory == show
    {
      showAddCategory := show;
    }

    method SetNewCategory(c: NewCategory)
      modifies this`newCategory
      ensures newCategory == c
    {
      newCategory := c;
    }

    /**
     * handleAddCategory. A blank name sets the name error, then an amount
     * that is not above zero the amount error; neither makes a call.
     * Otherwise it sets the category's limit for the current month
     * (`monthStart`); on success it refetches with `refetch` and then
     * empties and closes the form and clears the error, so a failed refetch
     * leaves no error showing; on failure the form stays and the add error
     * shows.
     */
    method HandleAddCategory(monthStart: string, requestFails: bool, refetch: Option<BudgetData>, draw: nat -> string)
      returns (call: Option<SetBudgetsCall>)
      modifies this`budgets, this`monthlyIncome, this`alertThreshold, this`error, this`loading,
               this`newCategory, this`showAddCategory
      ensures IsBlank(old(newCategory).name) ==> call.None? && error == Some(NameMissing)
      ensures !IsBlank(old(newCategory).name) && !ValidBudgetAmount(ParsedAmount(old(newCategory).budget)) ==>
        call.None? && error == Some(AmountInvalid)
      ensures call.None? ==>
        budgets == old(budgets) && newCategory == old(newCategory) && showAddCategory == old(showAddCategory)
        && loading == old(loading)
      ensures call.Some? <==> !IsBlank(old(newCategory).name) && ValidBudgetAmount(ParsedAmount(old(newCategory).budget))
      ensures call.Some? ==>
        call.value == SetBudgetsCall(monthStart, [CategoryLimit(old(newCategory).name, ParsedAmount(old(newCategory).budget).value)])
      ensures call.Some? && requestFails ==>
        budgets == old(budgets) && newCategory == old(newCategory) && showAddCategory == old(showAddCategory)
        && error == Some(AddFailed)
      ensures call.Some? && !requestFails ==> newCategory == EmptyCategory && !showAddCategory && error.None? && !loading
      ensures call.Some? && !requestFails && refetch.Some? ==> budgets == WithColors(refetch.value.budgets, draw)
      ensures call.Some? && !requestFails && refetch.None? ==> budgets == old(budgets)
    {
      if IsBlank(newCategory.name) {
        error := Some(NameMissing);
        return None;
      }
      var amount := ParsedAmount(newCategory.budget);
      if !ValidBudgetAmount(amount) {
        error := Some(AmountInvalid);
        return None;
      }
      call := Some(SetBudgetsCall(monthStart, [CategoryLimit(newCategory.name, amount.value)]));
      if requestFails {
        error := Some(AddFailed);
        return;
      }
      FetchBudgets(refetch, draw);
      newCategory, showAddCategory, error := EmptyCategory, false, None;
    }

    /** handleEditIncome: the income is copied into the income field. */
    method HandleEditIncome()
      modifies this`editingIncome, this`newIncomeAmount
      ensures editingIncome && newIncomeAmount == Shown(monthlyIncome)
    {
      editingIncome, newIncomeAmount := true, Shown(monthlyIncome);
    }

    method SetNewIncomeAmount(text: AmountText)
      modifies this`newIncomeAmount
      ensures newIncomeAmount == text
    {
      newIncomeAmount := text;
    }

    /**
     * handleSaveIncome: an income that is not a number, or is negative, only
     * sets the income error; otherwise it is sent, and on success it becomes
     * the monthly income and editing ends, on failure the income error of
     * the request shows.
     */
    method HandleSaveIncome(requestFails: bool) returns (sent: Option<real>)
      modifies this`monthlyIncome, this`editingIncome, this`error
      ensures var amount := ParsedAmount(newIncomeAmount);
        !ValidIncome(amount) ==>
          sent.None? && error == Some(IncomeInvalid) && monthlyIncome == old(monthlyIncome)
          && editingIncome == old(editingIncome)
      ensures var amount := ParsedAmount(newIncomeAmount); ValidIncome(amount) ==> sent == amount
      ensures var amount := ParsedAmount(newIncomeAmount);
        ValidIncome(amount) && !requestFails ==> monthlyIncome == amount.value && !editingIncome && error.None?
      ensures var amount := ParsedAmount(newIncomeAmount);
        ValidIncome(amount) && requestFails ==>
          monthlyIncome == old(monthlyIncome) && editingIncome == old(editingIncome) && error == Some(IncomeFailed)
    {
      var amount := ParsedAmount(newIncomeAmount);
      if !ValidIncome(amount) {
        error := Some(IncomeInvalid);
        return None;
      }
      sent := amount;
      if requestFails {
        error := Some(IncomeFailed);
      } else {
        monthlyIncome, editingIncome, error := amount.value, false, None;
      }
    }

    method SetShowAlertSettings(show: bool)
      modifies this`showAlertSettings
      ensures showAlertSettings == show
    {
      showAlertSettings := show;
    }

    /** The threshold input: Number of the field's text. */
    method SetAlertThreshold(threshold: real)
      modifies this`alertThreshold
      ensures alertThreshold == threshold
    {
      alertThreshold := threshold;
    }

    /**
     * handleSaveAlertSettings: a threshold outside 0..200 only sets the
     * threshold error; otherwise it is sent, and on success the settings
     * close and the error clears. A failed request is swallowed: nothing
     * changes.
     */
    method HandleSaveAlertSettings(requestFails: bool) returns (sent: Option<real>)
      modifies this`showAlertSettings, this`error
      ensures !ValidThreshold(alertThreshold) ==>
        sent.None? && error == Some(ThresholdInvalid) && showAlertSettings == old(showAlertSettings)
      ensures ValidThreshold(alertThreshold) ==> sent == Some(alertThreshold)
      ensures ValidThreshold(alertThreshold) && !requestFails ==> !showAlertSettings && error.None?
      ensures ValidThreshold(alertThreshold) && requestFails ==>
        showAlertSettings == old(showAlertSettings) && error == old(error)
    {
      if !ValidThreshold(alertThreshold) {
        error := Some(ThresholdInvalid);
        return None;
      }
      sent := Some(alertThreshold);
      if !requestFails {
        showAlertSettings, error := false, None;
      }
    }

    /** The rows of the per-category table. */
    function Rows(): (r: seq<RowView>)
      reads this
      ensures |r| == |budgets|
      ensures forall k :: 0 <= k < |r| ==> r[k] == RowOf(budgets[k].budget, alertThreshold)
    {
      seq(|budgets|, k reads this requires 0 <= k < |budgets| => RowOf(budgets[k].budget, alertThreshold))
    }
  }

  /**
   * A saved edit changes the total limit by exactly the difference at the
   * edited row; the month's remaining budget moves by the same amount.
   */
  lemma SavedEditMovesRemaining(bs: seq<ColoredBudget>, index: nat, amount: real)
    requires index < |bs|
    ensures var before := CalculateBudgetStats(Plain(bs));
      var after := CalculateBudgetStats(Plain(WithLimit(bs, index, amount)));
      after.remainingBudget == before.remainingBudget + (amount - bs[index].budget.budgetLimit)
      && after.totalSpent == before.totalSpent
  {
    SavedTotalLimit(bs, index, amount);
    SpentUnchanged(bs, index, amount);
  }

  lemma SpentUnchanged(bs: seq<ColoredBudget>, index: nat, amount: real)
    requires index < |bs|
    ensures TotalSpent(Plain(WithLimit(bs, index, amount))) == TotalSpent(Plain(bs))
  {
    SameSpent(Plain(WithLimit(bs, index, amount)), Plain(bs));
  }

  /** Two lists whose budgets spend the same at every position spend the same in total. */
  lemma {:induction false} SameSpent(a: seq<Budget>, b: seq<Budget>)
    requires |a| == |b| && forall k :: 0 <= k < |a| ==> a[k].spent == b[k].spent
    ensures TotalSpent(a) == TotalSpent(b)
    decreases |a|
  {
    if a != [] {
      SameSpent(a[..|a| - 1], b[..|b| - 1]);
    }
  }
}
