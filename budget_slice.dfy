/**
 * The budget slice of the client store. The state record is the class
 * BudgetStore; each reducer and each pending / fulfilled / rejected case of
 * the budget thunks is a method, with the thunk's result as its argument.
 * A reducer that throws leaves the store as it was (the draft is dropped)
 * and reports `thrown`.
 */
module BudgetSlice {
  import opened Wrappers
  import opened BudgetService
  import opened Lists
  import opened NumberText

  /** A budget as the slice stores it: the server's record plus a display colour. */
  datatype ColoredBudget = ColoredBudget(budget: Budget, color: string)

  /** The add-category form: a name and the typed budget. */
  datatype NewCategory = NewCategory(name: string, budget: AmountText)

  const EmptyCategory: NewCategory := NewCategory("", Blank)

  /**
   * The categoryColors table, looked up as an own entry only. In JavaScript
   * `categoryColors[name]` also finds inherited members such as "constructor"
   * or "toString", whose (truthy) function value getCategoryColor would then
   * return; the model gives the random colour for those names.
   */
  function KnownColor(name: string): (r: Option<string>)
    ensures r.Some? ==> |r.value| == 7 && r.value[0] == '#'
  {
    if name == "Food and Drink" then Some("#8FD14F")
    else if name == "Personal" then Some("#E88B8B")
    else if name == "Income" then Some("#A0D959")
    else if name == "Transport" then Some("#C89BF9")
    else if name == "Shopping" then Some("#F0A6E8")
    else if name == "Entertainment" then Some("#FFA726")
    else if name == "Health and Fitness" then Some("#80DECD")
    else if name == "Bills and Utilities" then Some("#7CD5F9")
    else None
  }

  /** getCategoryColor: the table's colour, else the random colour `draw`. */
  function CategoryColor(name: string, draw: string): (r: string)
    ensures KnownColor(name).Some? ==> r == KnownColor(name).value
    ensures KnownColor(name).None? ==> r == draw
  {
    match KnownColor(name)
    case Some(c) => c
    case None => draw
  }

  /** The eight named categories receive their fixed colour whatever is drawn, and no two share one. */
  lemma NamedCategoriesHaveFixedColors(name: string, draw1: string, draw2: string)
    requires KnownColor(name).Some?
    ensures CategoryColor(name, draw1) == CategoryColor(name, draw2)
    ensures forall other: string :: other != name && KnownColor(other).Some? ==> KnownColor(other) != KnownColor(name)
  {
  }

  /** `data.budgets.map(b => ({...b, color: getCategoryColor(b.category_name)}))`, the k-th random colour being draw(k). */
  function WithColors(bs: seq<Budget>, draw: nat -> string): (r: seq<ColoredBudget>)
    ensures |r| == |bs|
    ensures forall k :: 0 <= k < |r| ==> r[k].budget == bs[k] && r[k].color == CategoryColor(bs[k].categoryName, draw(k))
  {
    seq(|bs|, k requires 0 <= k < |bs| => ColoredBudget(bs[k], CategoryColor(bs[k].categoryName, draw(k))))
  }

  /** The server's records behind the coloured budgets. */
  function Plain(cbs: seq<ColoredBudget>): (r: seq<Budget>)
    ensures |r| == |cbs| && forall k :: 0 <= k < |r| ==> r[k] == cbs[k].budget
  {
    seq(|cbs|, k requires 0 <= k < |cbs| => cbs[k].budget)
  }

  /** `v || d` for a number read from JSON: None is null, undefined or NaN; 0 is falsy too. */
  function OrDefault(v: Option<real>, d: real): (r: real)
    ensures v.None? || v.value == 0.0 ==> r == d
    ensures v.Some? && v.value != 0.0 ==> r == v.value
  {
    if v.Some? && v.value != 0.0 then v.value else d
  }

  /** A falsy value always falls back, so the result is 0 only when the default is. */
  lemma OrDefaultNonZero(v: Option<real>, d: real)
    ensures OrDefault(v, d) == 0.0 <==> d == 0.0 && (v.None? || v.value == 0.0)
  {
  }

  /** `budgets[index].budget_limit = amount` */
  function WithLimit(bs: seq<ColoredBudget>, index: nat, amount: real): (r: seq<ColoredBudget>)
    requires index < |bs|
    ensures |r| == |bs|
    ensures r[index].budget.budgetLimit == amount && r[index].color == bs[index].color
    ensures r[index].budget.(budgetLimit := bs[index].budget.budgetLimit) == bs[index].budget
    ensures forall k :: 0 <= k < |r| && k != index ==> r[k] == bs[k]
  {
    bs[index := ColoredBudget(bs[index].budget.(budgetLimit := amount), bs[index].color)]
  }

  lemma PlainAppend(a: seq<ColoredBudget>, b: seq<ColoredBudget>)
    ensures Plain(a + b) == Plain(a) + Plain(b)
  {
    assert forall k :: 0 <= k < |a + b| ==> Plain(a + b)[k] == (Plain(a) + Plain(b))[k];
  }

  lemma {:induction false} TotalLimitAppend(a: seq<Budget>, b: seq<Budget>)
    ensures TotalLimit(a + b) == TotalLimit(a) + TotalLimit(b)
    decreases |b|
  {
    if b != [] {
      assert (a + b)[..|a + b| - 1] == a + b[..|b| - 1];
      TotalLimitAppend(a, b[..|b| - 1]);
    } else {
      assert a + b == a;
    }
  }

  lemma SingleTotal(b: Budget)
    ensures TotalLimit([b]) == b.budgetLimit
  {
    assert [b][..0] == [];
  }

  /** The total limit of a list split around one position. */
  lemma TotalAround(pre: seq<ColoredBudget>, x: ColoredBudget, post: seq<ColoredBudget>)
    ensures TotalLimit(Plain(pre + [x] + post)) == TotalLimit(Plain(pre)) + x.budget.budgetLimit + TotalLimit(Plain(post))
  {
    PlainAppend(pre + [x], post);
    PlainAppend(pre, [x]);
    TotalLimitAppend(Plain(pre) + Plain([x]), Plain(post));
    TotalLimitAppend(Plain(pre), Plain([x]));
    assert Plain([x]) == [x.budget];
    SingleTotal(x.budget);
  }

  /** After a saved edit the total limit moves by exactly the change at that position. */
  lemma SavedTotalLimit(bs: seq<ColoredBudget>, index: nat, amount: real)
    requires index < |bs|
    ensures TotalLimit(Plain(WithLimit(bs, index, amount))) == TotalLimit(Plain(bs)) - bs[index].budget.budgetLimit + amount
  {
    var r := WithLimit(bs, index, amount);
    assert bs == bs[..index] + [bs[index]] + bs[index + 1..];
    assert r == bs[..index] + [r[index]] + bs[index + 1..];
    TotalAround(bs[..index], bs[index], bs[index + 1..]);
    TotalAround(bs[..index], r[index], bs[index + 1..]);
  }

  /** After a removal the total limit drops by exactly the removed budget's limit. */
  lemma RemovedTotalLimit(bs: seq<ColoredBudget>, index: nat)
    requires index < |bs|
    ensures TotalLimit(Plain(WithoutIndex(bs, index))) == TotalLimit(Plain(bs)) - bs[index].budget.budgetLimit
  {
    WithoutIndexSplice(bs, index);
    assert bs == bs[..index] + [bs[index]] + bs[index + 1..];
    TotalAround(bs[..index], bs[index], bs[index + 1..]);
    PlainAppend(bs[..index], bs[index + 1..]);
    TotalLimitAppend(Plain(bs[..index]), Plain(bs[index + 1..]));
  }

  /** What getBudgets answers. */
  datatype BudgetData = BudgetData(budgets: seq<Budget>, monthlyIncome: Option<real>, alertThreshold: Option<real>)

  const SaveFailed: string := "Failed to update budget. Please try again."
  const RemoveFailed: string := "Failed to delete budget. Please try again."

  /**
   * The saveBudget thunk: reading budgets[index] of the list it is given, or
   * the request, failing rejects with SaveFailed; otherwise it fulfils with
   * (index, amount).
   */
  function SaveBudgetThunk(index: int, amount: real, bs: seq<ColoredBudget>, requestFails: bool): (r: Result<(int, real)>)
    ensures r.Ok? <==> 0 <= index < |bs| && !requestFails
    ensures r.Ok? ==> r.value == (index, amount)
    ensures r.Err? ==> r.error == SaveFailed
  {
    if 0 <= index < |bs| && !requestFails then Ok((index, amount)) else Err(SaveFailed)
  }

  /** The removeBudget thunk: fulfils with the index when budgets[index] exists and the request succeeds. */
  function RemoveBudgetThunk(index: int, bs: seq<ColoredBudget>, requestFails: bool): (r: Result<int>)
    ensures r.Ok? <==> 0 <= index < |bs| && !requestFails
    ensures r.Ok? ==> r.value == index
    ensures r.Err? ==> r.error == RemoveFailed
  {
    if 0 <= index < |bs| && !requestFails then Ok(index) else Err(RemoveFailed)
  }

  /** The budgets slice state. */
  class BudgetStore {
    var budgets: seq<ColoredBudget>
    var monthlyIncome: real
    var alertThreshold: real
    var loading: bool
    var formLoading: bool
    var error: Option<string>
    var editingIndex: Option<int>
    var newBudgetAmount: AmountText
    var showAddCategory: bool
    var newCategory: NewCategory

    /** initialState */
    constructor ()
      ensures budgets == [] && monthlyIncome == 0.0 && alertThreshold == 100.0
      ensures loading && !formLoading && error.None? && editingIndex.None?
      ensures newBudgetAmount == Blank && !showAddCategory && newCategory == EmptyCategory
    {
      budgets, monthlyIncome, alertThreshold := [], 0.0, 100.0;
      loading, formLoading, error, editingIndex := true, false, None, None;
      newBudgetAmount, showAddCategory, newCategory := Blank, false, EmptyCategory;
    }

    /**
     * setEditingIndex: a position copies that budget's limit into the amount
     * field; null only clears the index. A position with no budget throws.
     */
    method SetEditingIndex(index: Option<int>) returns (thrown: bool)
      modifies this`editingIndex, this`newBudgetAmount
      ensures thrown <==> index.Some? && !(0 <= index.value < |budgets|)
      ensures thrown ==> editingIndex == old(editingIndex) && newBudgetAmount == old(newBudgetAmount)
      ensures !thrown ==> editingIndex == index
      ensures !thrown && index.Some? ==> newBudgetAmount == Shown(budgets[index.value].budget.budgetLimit)
      ensures index.None? ==> newBudgetAmount == old(newBudgetAmount)
    {
      if index.Some? && !(0 <= index.value < |budgets|) {
        return true;
      }
      thrown := false;
      editingIndex := index;
      if index.Some? {
        newBudgetAmount := Shown(budgets[index.value].budget.budgetLimit);
      }
    }

    /** setNewBudgetAmount */
    method SetNewBudgetAmount(text: AmountText)
      modifies this`newBudgetAmount
      ensures newBudgetAmount == text
    {
      newBudgetAmount := text;
    }

    /** setShowAddCategory: closing the form also empties it; opening leaves it as it is. */
    method SetShowAddCategory(show: bool)
      modifies this`showAddCategory, this`newCategory
      ensures showAddCategory == show
      ensures !show ==> newCategory == EmptyCategory
      ensures show ==> newCategory == old(newCategory)
    {
      showAddCategory := show;
      if !show {
        newCategory := EmptyCategory;
      }
    }

    /** setNewCategory */
    method SetNewCategory(c: NewCategory)
      modifies this`newCategory
      ensures newCategory == c
    {
      newCategory := c;
    }

    /** clearBudgetError */
    method ClearBudgetError()
      modifies this`error
      ensures error.None?
    {
      error := None;
    }

    /** fetchBudgets.pending */
    method FetchPending()
      modifies this`loading, this`error
      ensures loading && error.None?
    {
      loading, error := true, None;
    }

    /**
     * fetchBudgets.fulfilled: the budgets with their colours (the k-th random
     * colour being draw(k)); a falsy income becomes 0 and a falsy threshold 100.
     */
    method FetchFulfilled(data: BudgetData, draw: nat -> string)
      modifies this`budgets, this`monthlyIncome, this`alertThreshold, this`loading
      ensures Plain(budgets) == data.budgets
      ensures forall k :: 0 <= k < |budgets| ==> budgets[k].color == CategoryColor(data.budgets[k].categoryName, draw(k))
      ensures monthlyIncome == OrDefault(data.monthlyIncome, 0.0)
      ensures alertThreshold == OrDefault(data.alertThreshold, 100.0)
      ensures !loading
    {
      budgets := WithColors(data.budgets, draw);
      monthlyIncome := OrDefault(data.monthlyIncome, 0.0);
      alertThreshold := OrDefault(data.alertThreshold, 100.0);
      loading := false;
    }

    /** fetchBudgets.rejected */
    method FetchRejected(message: string)
      modifies this`loading, this`error
      ensures !loading && error == Some(message)
    {
      loading, error := false, Some(message);
    }

    /** saveBudget.pending, removeBudget.pending and addBudgetCategory.pending. */
    method FormPending()
      modifies this`formLoading, this`error
      ensures formLoading && error.None?
    {
      formLoading, error := true, None;
    }

    /** saveBudget.rejected, removeBudget.rejected and addBudgetCategory.rejected: the budgets are untouched. */
    method FormRejected(message: string)
      modifies this`formLoading, this`error
      ensures !formLoading && error == Some(message)
    {
      formLoading, error := false, Some(message);
    }

    /**
     * saveBudget.fulfilled: only the limit at index changes, and editing ends.
     * An index with no budget in the store throws.
     */
    method SaveFulfilled(index: int, amount: real) returns (thrown: bool)
      modifies this`budgets, this`editingIndex, this`formLoading
      ensures thrown <==> !(0 <= index < |old(budgets)|)
      ensures thrown ==> budgets == old(budgets) && editingIndex == old(editingIndex) && formLoading == old(formLoading)
      ensures !thrown ==> budgets == WithLimit(old(budgets), index, amount) && editingIndex.None? && !formLoading
      ensures !thrown ==> TotalLimit(Plain(budgets)) == TotalLimit(Plain(old(budgets))) - old(budgets)[index].budget.budgetLimit + amount
    {
      if !(0 <= index < |budgets|) {
        return true;
      }
      thrown := false;
      SavedTotalLimit(budgets, index, amount);
      budgets := WithLimit(budgets, index, amount);
      editingIndex, formLoading := None, false;
    }

    /** removeBudget.fulfilled: exactly position index goes, the rest keep their order. */
    method RemoveFulfilled(index: int)
      modifies this`budgets, this`formLoading
      ensures 0 <= index < |old(budgets)| ==> budgets == old(budgets)[..index] + old(budgets)[index + 1..]
      ensures 0 <= index < |old(budgets)| ==>
        TotalLimit(Plain(budgets)) == TotalLimit(Plain(old(budgets))) - old(budgets)[index].budget.budgetLimit
      ensures !(0 <= index < |old(budgets)|) ==> budgets == old(budgets)
      ensures !formLoading
    {
      WithoutIndexSplice(budgets, index);
      if 0 <= index < |budgets| {
        RemovedTotalLimit(budgets, index);
      }
      budgets := WithoutIndex(budgets, index);
      formLoading := false;
    }

    /** addBudgetCategory.fulfilled: the form closes and is emptied. */
    method AddCategoryFulfilled()
      modifies this`formLoading, this`showAddCategory, this`newCategory
      ensures !formLoading && !showAddCategory && newCategory == EmptyCategory
    {
      formLoading, showAddCategory, newCategory := false, false, EmptyCategory;
    }

    /** setMonthlyIncome.fulfilled */
    method MonthlyIncomeFulfilled(amount: real)
      modifies this`monthlyIncome
      ensures monthlyIncome == amount
    {
      monthlyIncome := amount;
    }

    /** setAlertThreshold.fulfilled */
    method AlertThresholdFulfilled(threshold: real)
      modifies this`alertThreshold
      ensures alertThreshold == threshold
    {
      alertThreshold := threshold;
    }
  }
}
