/**
 * The budget manager screen backed by the client store: its category
 * choices, what each handler checks before it dispatches a budget thunk,
 * and what the store then holds. A dispatched thunk runs its pending case,
 * then its fulfilled or rejected case; whether the service call fails, the
 * refetched data and the random colours are parameters. The row metrics and
 * the month's progress bar are the ones of the self-contained budget
 * manager.
 */
module BudgetPanel {
  import opened Wrappers
  import opened Js
  import opened BudgetService
  import opened NumberText
  import opened BudgetSlice
  import BudgetManager

  /** Whether a category takes money out or brings it in. */
  datatype CategoryKind = Debit | Credit

  /** An entry of the category picker. */
  datatype CategoryOption = CategoryOption(name: string, value: string, kind: CategoryKind, color: string)

  /** The eight categories the add form offers. */
  const CategoryOptions: seq<CategoryOption> := [
    CategoryOption("Food and Drink", "Food and Drink", Debit, "bg-green-100 text-green-800"),
    CategoryOption("Personal", "Personal", Debit, "bg-pink-100 text-pink-800"),
    CategoryOption("Income", "Income", Credit, "bg-yellow-100 text-yellow-800"),
    CategoryOption("Transport", "Transport", Debit, "bg-purple-100 text-purple-800"),
    CategoryOption("Shopping", "Shopping", Debit, "bg-gray-100 text-gray-800"),
    CategoryOption("Entertainment", "Entertainment", Debit, "bg-orange-100 text-orange-800"),
    CategoryOption("Health and Fitness", "Health and Fitness", Debit, "bg-blue-100 text-blue-800"),
    CategoryOption("Bills and Utilities", "Bills and Utilities", Debit, "bg-blue-100 text-blue-800")
  ]

  /**
   * Only "Income" is a credit category; every option is named by its value,
   * and each value is one of the categories that have a fixed chart colour.
   */
  lemma OnlyIncomeIsCredit()
    ensures forall o :: o in CategoryOptions ==> (o.kind == Credit <==> o.value == "Income")
    ensures forall o :: o in CategoryOptions ==> o.name == o.value && KnownColor(o.value).Some?
    ensures exists o :: o in CategoryOptions && o.kind == Credit
  {
    assert CategoryOptions[2].kind == Credit;
  }

  /** A category button: the form's name becomes the option's value, its amount stays. */
  method SelectCategory(store: BudgetStore, option: CategoryOption)
    modifies store`newCategory
    ensures store.newCategory == NewCategory(option.value, old(store.newCategory.budget))
  {
    store.SetNewCategory(NewCategory(option.value, store.newCategory.budget));
  }

  /** handleEdit: dispatches setEditingIndex for the row. */
  method HandleEdit(store: BudgetStore, index: nat) returns (thrown: bool)
    modifies store`editingIndex, store`newBudgetAmount
    ensures thrown <==> index >= |store.budgets|
    ensures !thrown ==>
      store.editingIndex == Some(index as int) && store.newBudgetAmount == Shown(store.budgets[index].budget.budgetLimit)
  {
    thrown := store.SetEditingIndex(Some(index));
  }

  /**
   * handleSave: an amount that is not a number above zero is ignored without
   * a message and nothing is dispatched. Otherwise saveBudget runs for the
   * store's list: on success only that row's limit changes and editing
   * ends; on failure (or a row that is not there) the list stays and the
   * save error shows.
   */
  method HandleSave(store: BudgetStore, index: nat, requestFails: bool) returns (dispatched: bool)
    modifies store`budgets, store`editingIndex, store`formLoading, store`error
    ensures dispatched <==> BudgetManager.ValidBudgetAmount(ParsedAmount(old(store.newBudgetAmount)))
    ensures !dispatched ==>
      store.budgets == old(store.budgets) && store.editingIndex == old(store.editingIndex)
      && store.formLoading == old(store.formLoading) && store.error == old(store.error)
    ensures dispatched && index < |old(store.budgets)| && !requestFails ==>
      store.budgets == WithLimit(old(store.budgets), index, ParsedAmount(store.newBudgetAmount).value)
      && store.editingIndex.None? && store.error.None? && !store.formLoading
    ensures dispatched && (index >= |old(store.budgets)| || requestFails) ==>
      store.budgets == old(store.budgets) && store.editingIndex == old(store.editingIndex)
      && store.error == Some(SaveFailed) && !store.formLoading
  {
    var amount := ParsedAmount(store.newBudgetAmount);
    if !BudgetManager.ValidBudgetAmount(amount) {
      return false;
    }
    dispatched := true;
    store.FormPending();
    var r := SaveBudgetThunk(index, amount.value, store.budgets, requestFails);
    if r.Ok? {
      var thrown := store.SaveFulfilled(index, amount.value);
    } else {
      store.FormRejected(r.error);
    }
  }

  /**
   * handleDelete: removeBudget runs for the row; on success exactly that row
   * goes, on failure the list stays and the delete error shows.
   */
  method HandleDelete(store: BudgetStore, index: nat, requestFails: bool)
    modifies store`budgets, store`formLoading, store`error
    ensures index < |old(store.budgets)| && !requestFails ==>
      store.budgets == old(store.budgets)[..index] + old(store.budgets)[index + 1..] && store.error.None?
    ensures index >= |old(store.budgets)| || requestFails ==>
      store.budgets == old(store.budgets) && store.error == Some(RemoveFailed)
    ensures !store.formLoading
  {
    store.FormPending();
    var r := RemoveBudgetThunk(index, store.budgets, requestFails);
    if r.Ok? {
      store.RemoveFulfilled(index);
    } else {
      store.FormRejected(r.error);
    }
  }

  /**
   * handleAddCategory: a blank name or an amount that is not above zero is
   * ignored without a message. Otherwise addBudgetCategory runs with the
   * name and amount; only when it succeeds is the form emptied and closed
   * and the budgets refetched (`refetch` being getBudgets' answer, None on
   * failure). A failed add leaves the list and the form as they were and
   * shows the add error.
   */
  method HandleAddCategory(store: BudgetStore, addFails: bool, refetch: Option<BudgetData>, draw: nat -> string)
    returns (added: Option<(string, real)>)
    modifies store`budgets, store`monthlyIncome, store`alertThreshold, store`loading, store`formLoading,
             store`error, store`showAddCategory, store`newCategory
    ensures var c := old(store.newCategory);
      added.Some? <==> !IsBlank(c.name) && BudgetManager.ValidBudgetAmount(ParsedAmount(c.budget))
    ensures added.Some? ==> added.value == (old(store.newCategory).name, ParsedAmount(old(store.newCategory).budget).value)
    ensures added.None? || addFails ==>
      store.budgets == old(store.budgets) && store.loading == old(store.loading)
      && store.newCategory == old(store.newCategory) && store.showAddCategory == old(store.showAddCategory)
    ensures added.None? ==> store.error == old(store.error)
    ensures added.Some? && addFails ==> store.error == Some(BudgetManager.AddFailed)
    ensures added.Some? && !addFails ==> store.newCategory == EmptyCategory && !store.showAddCategory && !store.loading
    ensures added.Some? && !addFails && refetch.Some? ==>
      Plain(store.budgets) == refetch.value.budgets && store.error.None?
    ensures added.Some? && !addFails && refetch.None? ==>
      store.budgets == old(store.budgets) && store.error == Some(BudgetManager.LoadFailed)
  {
    var c := store.newCategory;
    if IsBlank(c.name) {
      return None;
    }
    var amount := ParsedAmount(c.budget);
    if !BudgetManager.ValidBudgetAmount(amount) {
      return None;
    }
    added := Some((c.name, amount.value));
    store.FormPending();
    if addFails {
      store.FormRejected(BudgetManager.AddFailed);
      return;
    }
    store.AddCategoryFulfilled();
    store.FetchPending();
    match refetch {
      case Some(data) =>
        store.FetchFulfilled(data, draw);
      case None =>
        store.FetchRejected(BudgetManager.LoadFailed);
    }
  }

  /** The table rows the screen shows for the store. */
  function Rows(store: BudgetStore): (r: seq<BudgetManager.RowView>)
    reads store
    ensures |r| == |store.budgets|
    ensures forall k :: 0 <= k < |r| ==> r[k] == BudgetManager.RowOf(store.budgets[k].budget, store.alertThreshold)
  {
    seq(|store.budgets|, k reads store requires 0 <= k < |store.budgets| =>
      BudgetManager.RowOf(store.budgets[k].budget, store.alertThreshold))
  }

  /** The month's progress bar for the store: calculateBudgetStats' percentage against the threshold. */
  function ProgressBar(store: BudgetStore): (r: BudgetManager.Progress)
    reads store
    ensures r.filled == CalculateBudgetStats(Plain(store.budgets)).spentPercentage
    ensures r.filled + r.rest == 100
    ensures r.alertShown <==> r.filled as real >= store.alertThreshold
  {
    BudgetManager.ProgressOf(CalculateBudgetStats(Plain(store.budgets)).spentPercentage, store.alertThreshold)
  }
}
