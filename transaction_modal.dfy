/**
 * The add / edit transaction dialog of the stand-alone list: its form state,
 * the income / expense switch, and the category buttons it offers.
 */
module TransactionModal {
  import opened Wrappers
  import opened TransactionList

  /**
   * The form's record: a list transaction without its id. `amount` is a
   * number that parseFloat may have made NaN (None).
   */
  datatype FormData = FormData(description: string, date: string, category: string, categoryType: string,
                               paymentMethod: string, amount: Option<real>)

  /** The form's text inputs, by their `name`. */
  datatype Field = Description | Amount | PaymentMethod | DateField

  datatype CategoryOption = CategoryOption(value: string, labelText: string, optionType: string)

  /** CATEGORY_OPTIONS */
  const CategoryOptions: seq<CategoryOption> := [
    CategoryOption("food", "Food and Drink", "expense"),
    CategoryOption("bills", "Bills and Utilities", "expense"),
    CategoryOption("personal", "Personal", "expense"),
    CategoryOption("transport", "Transport", "expense"),
    CategoryOption("shopping", "Shopping", "expense"),
    CategoryOption("entertainment", "Entertainment", "expense"),
    CategoryOption("health", "Health and Fitness", "expense"),
    CategoryOption("income", "Income", "income")
  ]

  /** The button filter: income buttons for the income type, expense buttons for any other. */
  predicate Matches(transactionType: string, c: CategoryOption)
  {
    if transactionType == "income" then c.optionType == "income" else c.optionType == "expense"
  }

  /** `cs.filter(cat => transactionType === "income" ? cat.type === "income" : cat.type === "expense")` */
  function OfferedIn(cs: seq<CategoryOption>, transactionType: string): (r: seq<CategoryOption>)
    ensures forall c :: c in r ==> c in cs && Matches(transactionType, c)
  {
    if cs == [] then []
    else (if Matches(transactionType, cs[0]) then [cs[0]] else []) + OfferedIn(cs[1..], transactionType)
  }

  /** The category buttons shown for a transaction type. */
  function Offered(transactionType: string): seq<CategoryOption>
  {
    OfferedIn(CategoryOptions, transactionType)
  }

  /** For the income type exactly the Income button is offered. */
  lemma OfferedIncome()
    ensures Offered("income") == [CategoryOptions[7]]
  {
    var transactionType := "income";
    var s := CategoryOptions;
    assert s == s[..7] + [s[7]];
    IncomeMatches(transactionType);
    OfferedInAppend(s[..7], [s[7]], transactionType);
    OfferedInNone(s[..7], transactionType);
    OfferedInAll([s[7]], transactionType);
  }

  /** Of the buttons, only the last one matches the income type. */
  lemma IncomeMatches(transactionType: string)
    requires transactionType == "income"
    ensures forall i :: 0 <= i < 7 ==> !Matches(transactionType, CategoryOptions[..7][i])
    ensures forall i :: 0 <= i < 1 ==> Matches(transactionType, [CategoryOptions[7]][i])
  {
    ExpenseOptions();
  }

  /** For any other type exactly the seven expense buttons are offered, in their order. */
  lemma OfferedExpense(transactionType: string)
    requires transactionType != "income"
    ensures Offered(transactionType) == CategoryOptions[..7]
  {
    var s := CategoryOptions;
    assert s == s[..7] + [s[7]];
    ExpenseOptions();
    OfferedInAppend(s[..7], [s[7]], transactionType);
    OfferedInAll(s[..7], transactionType);
  }

  lemma {:induction false} OfferedInAppend(a: seq<CategoryOption>, b: seq<CategoryOption>, transactionType: string)
    ensures OfferedIn(a + b, transactionType) == OfferedIn(a, transactionType) + OfferedIn(b, transactionType)
    decreases |a|
  {
    if a != [] {
      assert (a + b)[1..] == a[1..] + b;
      OfferedInAppend(a[1..], b, transactionType);
    } else {
      assert a + b == b;
    }
  }

  lemma {:induction false} OfferedInAll(cs: seq<CategoryOption>, transactionType: string)
    requires forall i :: 0 <= i < |cs| ==> Matches(transactionType, cs[i])
    ensures OfferedIn(cs, transactionType) == cs
    decreases |cs|
  {
    if cs != [] {
      OfferedInAll(cs[1..], transactionType);
    }
  }

  lemma {:induction false} OfferedInNone(cs: seq<CategoryOption>, transactionType: string)
    requires forall i :: 0 <= i < |cs| ==> !Matches(transactionType, cs[i])
    ensures OfferedIn(cs, transactionType) == []
    decreases |cs|
  {
    if cs != [] {
      OfferedInNone(cs[1..], transactionType);
    }
  }

  lemma ExpenseOptions()
    ensures forall k :: 0 <= k < 7 ==> CategoryOptions[..7][k].optionType == "expense"
    ensures CategoryOptions[7].optionType == "income"
  {
  }

  /** Every offered button's type agrees with the selected type. */
  lemma OfferedAgree(transactionType: string)
    ensures forall c :: c in Offered(transactionType) ==> (c.optionType == "income" <==> transactionType == "income")
  {
  }

  /** The form a transaction type and a category type agree on: "income" with "income", "expense" with anything else. */
  predicate Compatible(categoryType: string, transactionType: string)
  {
    categoryType == "income" <==> transactionType == "income"
  }

  /** The empty form for a new transaction; `today` is the ISO date of the current instant. */
  function EmptyForm(today: string): FormData
  {
    FormData("", today, "", "expense", "", Some(0.0))
  }

  class TransactionModal {
    var formData: FormData
    var transactionType: string

    /** The form agrees with the transaction type. */
    ghost predicate Valid()
      reads this
    {
      Compatible(formData.categoryType, transactionType)
    }

    /** The initial state, with `today` the ISO date of the current instant. */
    constructor (today: string)
      ensures Valid()
      ensures formData == EmptyForm(today) && transactionType == "expense"
    {
      formData, transactionType := EmptyForm(today), "expense";
    }

    /**
     * The effect run on opening: a transaction's six fields are copied and
     * the type is income exactly for an income category; without one the
     * form is reset.
     */
    method Open(transaction: Option<ListTransaction>, today: string)
      modifies this
      ensures Valid()
      ensures transaction.Some? ==> var t := transaction.value;
        formData == FormData(t.description, t.date, t.category, t.categoryType, t.paymentMethod, Some(t.amount))
        && transactionType == (if t.categoryType == "income" then "income" else "expense")
      ensures transaction.None? ==> formData == EmptyForm(today) && transactionType == "expense"
    {
      match transaction {
        case Some(t) =>
          formData := FormData(t.description, t.date, t.category, t.categoryType, t.paymentMethod, Some(t.amount));
          transactionType := if t.categoryType == "income" then "income" else "expense";
        case None =>
          formData := EmptyForm(today);
          transactionType := "expense";
      }
    }

    /**
     * handleChange: the amount input stores what parseFloat reads from the
     * text (`parsed`), every other input stores its raw text; nothing else
     * changes.
     */
    method HandleChange(field: Field, value: string, parsed: Option<real>)
      modifies this`formData
      ensures Valid() <==> old(Valid())
      ensures field == Amount ==> formData == old(formData).(amount := parsed)
      ensures field == Description ==> formData == old(formData).(description := value)
      ensures field == PaymentMethod ==> formData == old(formData).(paymentMethod := value)
      ensures field == DateField ==> formData == old(formData).(date := value)
    {
      match field {
        case Amount => formData := formData.(amount := parsed);
        case Description => formData := formData.(description := value);
        case PaymentMethod => formData := formData.(paymentMethod := value);
        case DateField => formData := formData.(date := value);
      }
    }

    /** handleCategorySelect: category, category type and transaction type change together. */
    method HandleCategorySelect(category: string, optionType: string)
      modifies this
      ensures Valid()
      ensures formData == old(formData).(category := category, categoryType := optionType)
      ensures transactionType == optionType
    {
      formData := formData.(category := category, categoryType := optionType);
      transactionType := optionType;
    }

    /**
     * handleTransactionTypeSelect: the category is cleared, and its type set to
     * the new type, only when the current category type does not agree with
     * the new type.
     */
    method HandleTransactionTypeSelect(newType: string)
      requires newType == "income" || newType == "expense"
      modifies this
      ensures Valid()
      ensures transactionType == newType
      ensures Compatible(old(formData).categoryType, newType) ==> formData == old(formData)
      ensures !Compatible(old(formData).categoryType, newType) ==>
        formData == old(formData).(category := "", categoryType := newType)
    {
      transactionType := newType;
      if (newType == "income" && formData.categoryType != "income")
         || (newType == "expense" && formData.categoryType == "income") {
        formData := formData.(category := "", categoryType := newType);
      }
    }

    /** handleSubmit: the form is handed to onSave as it stands (the parent then closes the dialog). */
    method Submit() returns (saved: FormData)
      ensures saved == formData
    {
      saved := formData;
    }
  }
}
