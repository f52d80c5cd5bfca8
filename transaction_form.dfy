/**
 * The record-transaction form: its fields and their initial values, the
 * category buttons, the record it submits, and the date text it would show
 * in a date input.
 */
module TransactionForm {
  import opened Wrappers
  import opened Js
  import opened Dates
  import opened NumberText
  import opened IsoTime
  import opened TransactionSlice

  datatype CategoryOption = CategoryOption(name: string, value: string, optionType: string, color: string)

  /** CATEGORY_OPTIONS */
  const CategoryOptions: seq<CategoryOption> := [
    CategoryOption("Food and Drink", "Food and Drink", "debit", "bg-green-100 text-green-800"),
    CategoryOption("Personal", "Personal", "debit", "bg-pink-100 text-pink-800"),
    CategoryOption("Income", "Income", "credit", "bg-yellow-100 text-yellow-800"),
    CategoryOption("Transport", "Transport", "debit", "bg-purple-100 text-purple-800"),
    CategoryOption("Shopping", "Shopping", "debit", "bg-gray-100 text-gray-800"),
    CategoryOption("Entertainment", "Entertainment", "debit", "bg-orange-100 text-orange-800"),
    CategoryOption("Health and Fitness", "Health and Fitness", "debit", "bg-blue-100 text-blue-800"),
    CategoryOption("Bills and Utilities", "Bills and Utilities", "debit", "bg-blue-100 text-blue-800")
  ]

  /** Among the options only Income is a credit; every other option is a debit. */
  lemma OnlyIncomeIsCredit()
    ensures forall i :: 0 <= i < |CategoryOptions| ==>
      (CategoryOptions[i].optionType == "credit" <==> CategoryOptions[i].value == "Income")
    ensures forall i :: 0 <= i < |CategoryOptions| ==>
      CategoryOptions[i].optionType == "credit" || CategoryOptions[i].optionType == "debit"
  {
  }

  /**
   * The form's initialValues, a partial transaction input; None is an absent
   * field. A present amount is a number, which toString writes and parseFloat
   * reads back.
   */
  datatype InitialValues = InitialValues(vendor: Option<string>, amount: Option<real>, transactionDate: Option<string>,
                                         category: Option<string>, transactionType: Option<string>)

  const NoInitialValues: InitialValues := InitialValues(None, None, None, None, None)

  /**
   * The initial values the transactions page hands the form: the transaction
   * being edited read as a transaction input, or none. The page passes the
   * stored record, whose date and category sit under transaction_date and
   * category_name, so the form's transactionDate and category reads find
   * nothing.
   */
  function InitialFromEditing(editing: Option<Transaction>): (r: InitialValues)
    ensures editing.Some? ==> r.transactionDate.None? && r.category.None?
  {
    match editing
    case None => NoInitialValues
    case Some(t) => InitialValues(t.vendor, t.amount, None, None, Some(t.transactionType))
  }

  /** The initial values read from the stored record's own date and category fields. */
  function InitialFromEditingCorrected(editing: Option<Transaction>): (r: InitialValues)
    ensures editing.Some? ==> r.transactionDate == Some(editing.value.transactionDate)
    ensures editing.Some? ==> r.category == Some(editing.value.categoryName)
  {
    match editing
    case None => NoInitialValues
    case Some(t) => InitialValues(t.vendor, t.amount, Some(t.transactionDate), Some(t.categoryName), Some(t.transactionType))
  }

  /** The form's state. */
  class TransactionForm {
    var title: string
    var amount: AmountText
    var date: string
    var category: string
    var transactionType: string

    /**
     * The initial state: the title from the vendor, the amount as text when
     * given, date and category when given, and the type defaulting to debit.
     */
    constructor (initial: InitialValues)
      ensures title == TextOr(initial.vendor, "")
      ensures amount == (if initial.amount.Some? then Shown(initial.amount.value) else Blank)
      ensures date == TextOr(initial.transactionDate, "")
      ensures category == TextOr(initial.category, "")
      ensures transactionType == TextOr(initial.transactionType, "debit")
    {
      title := TextOr(initial.vendor, "");
      amount := if initial.amount.Some? then Shown(initial.amount.value) else Blank;
      date := TextOr(initial.transactionDate, "");
      category := TextOr(initial.category, "");
      transactionType := TextOr(initial.transactionType, "debit");
    }

    /** handleCategorySelect: the category and its debit / credit type are set together. */
    method HandleCategorySelect(option: CategoryOption)
      modifies this`category, this`transactionType
      ensures category == option.value && transactionType == option.optionType
    {
      category, transactionType := option.value, option.optionType;
    }

    /** The title, amount and date inputs each set their own field. */
    method SetTitle(text: string)
      modifies this`title
      ensures title == text
    {
      title := text;
    }

    method SetAmount(text: AmountText)
      modifies this`amount
      ensures amount == text
    {
      amount := text;
    }

    /**
     * The date input's onChange: the picked "YYYY-MM-DD" text is read as UTC
     * midnight and stored as that instant's ISO text. An empty or malformed
     * value is an Invalid Date, on which toISOString throws: the handler
     * fails and the date stays.
     */
    method ChangeDate(value: string) returns (r: Result<()>)
      modifies this`date
      ensures PickedInstant(value).Some? ==> r.Ok? && date == IsoText(PickedInstant(value).value)
      ensures PickedInstant(value).None? ==> r.Err? && date == old(date)
    {
      match PickedInstant(value)
      case Some(t) =>
        date := IsoText(t);
        r := Ok(());
      case None =>
        r := Err("RangeError: Invalid time value");
    }

    /**
     * handleSubmit: the record handed to onSubmit: the parsed amount, the
     * category, the title as vendor, the type, and the chosen date or, when
     * none is chosen, `nowIso` (the current instant's ISO text).
     */
    method Submit(nowIso: string) returns (input: TransactionInput)
      ensures input == SubmittedRecord(title, amount, date, category, transactionType, nowIso)
    {
      input := TransactionInput(ParsedAmount(amount), category, title, transactionType, if date != "" then date else nowIso);
    }
  }

  /** The record a form with these fields submits. */
  function SubmittedRecord(title: string, amount: AmountText, date: string, category: string, transactionType: string,
                           nowIso: string): (r: TransactionInput)
    ensures r.amount == ParsedAmount(amount) && r.vendor == title && r.category == category
    ensures r.transactionType == transactionType
    ensures date != "" ==> r.transactionDate == date
    ensures date == "" ==> r.transactionDate == nowIso
  {
    TransactionInput(ParsedAmount(amount), category, title, transactionType, if date != "" then date else nowIso)
  }

  /** The initial values of a transaction input: every field present. */
  function InitialOf(i: TransactionInput): InitialValues
  {
    InitialValues(Some(i.vendor), i.amount, Some(i.transactionDate), Some(i.category), Some(i.transactionType))
  }

  /**
   * Opening the form on an input with a date and a type and submitting it
   * untouched hands back that input, whatever the current instant.
   */
  lemma UntouchedFormRoundTrip(i: TransactionInput, nowIso: string)
    requires i.transactionDate != "" && i.transactionType != ""
    ensures var v := InitialOf(i);
      SubmittedRecord(TextOr(v.vendor, ""), if v.amount.Some? then Shown(v.amount.value) else Blank,
                      TextOr(v.transactionDate, ""), TextOr(v.category, ""), TextOr(v.transactionType, "debit"),
                      nowIso) == i
  {
  }

  /** The fields a form opened with these initial values submits when left untouched. */
  function UntouchedSubmit(v: InitialValues, nowIso: string): TransactionInput
  {
    SubmittedRecord(TextOr(v.vendor, ""), if v.amount.Some? then Shown(v.amount.value) else Blank,
                    TextOr(v.transactionDate, ""), TextOr(v.category, ""), TextOr(v.transactionType, "debit"), nowIso)
  }

  /**
   * As written, saving an edit without touching the fields sends the current
   * instant as the transaction's date and an empty category, whatever the
   * stored transaction held.
   */
  lemma EditLosesDateAndCategory(t: Transaction, nowIso: string)
    ensures UntouchedSubmit(InitialFromEditing(Some(t)), nowIso).transactionDate == nowIso
    ensures UntouchedSubmit(InitialFromEditing(Some(t)), nowIso).category == ""
  {
  }

  /** A stored transaction dated "2024-01-15" is re-dated to the moment of the edit. */
  lemma EditLosesDateExample(t: Transaction)
    requires t.transactionDate == "2024-01-15"
    ensures UntouchedSubmit(InitialFromEditing(Some(t)), "2025-03-01T10:00:00.000Z").transactionDate != t.transactionDate
  {
    EditLosesDateAndCategory(t, "2025-03-01T10:00:00.000Z");
  }

  /**
   * Read from the record's own fields, saving an untouched edit keeps the
   * stored date and category (when the date text is not empty).
   */
  lemma EditKeepsDateAndCategory(t: Transaction, nowIso: string)
    requires t.transactionDate != ""
    ensures UntouchedSubmit(InitialFromEditingCorrected(Some(t)), nowIso).transactionDate == t.transactionDate
    ensures t.categoryName != "" ==> UntouchedSubmit(InitialFromEditingCorrected(Some(t)), nowIso).category == t.categoryName
  {
  }

  /** `new Date(value)` for the value of a date input: UTC midnight of that day; None when it is not a date. */
  function PickedInstant(value: string): (r: Option<nat>)
    ensures r.Some? <==> ParseDate(value).Some?
    ensures r.Some? ==> r.value == DayNumber(ParseDate(value).value) * MsPerDay
  {
    match ParseDate(value)
    case Some(d) => Some(DayNumber(d) * MsPerDay)
    case None => None
  }

  /**
   * formatDateForInput: the empty text stays empty; any other text is read
   * as an instant (`instant`, None when the text is not a date, where
   * toISOString throws) and shown as the date part of its ISO text.
   */
  function FormatDateForInput(dateString: string, instant: Option<nat>): (r: Result<string>)
    ensures dateString == "" ==> r == Ok("")
    ensures dateString != "" && instant.None? ==> r.Err?
    ensures dateString != "" && instant.Some? ==> r == Ok(IsoDate(CivilFromDays(instant.value / MsPerDay)))
  {
    if dateString == "" then Ok("")
    else match instant
      case None => Err("RangeError: Invalid time value")
      case Some(t) => Ok(IsoDate(CivilFromDays(t / MsPerDay)))
  }

  /** The date part of an instant's ISO text is its first ten characters, the part before "T". */
  lemma DatePartOfIso(t: nat)
    requires t < FourDigitYearsEnd
    ensures IsoText(t)[..10] == IsoDate(CivilFromDays(t / MsPerDay))
  {
    var d := CivilFromDays(t / MsPerDay);
    FourDigitYear(t);
    IsoDateReadsBack(d);
    var date, time := IsoDate(d), TimeText(t % MsPerDay);
    assert IsoText(t) == date + "T" + time + "Z";
    PrefixOfAppend(date + "T" + time, "Z", 10);
    PrefixOfAppend(date + "T", time, 10);
    PrefixOfAppend(date, "T", 10);
  }

  lemma PrefixOfAppend<T>(x: seq<T>, y: seq<T>, k: nat)
    requires k <= |x|
    ensures (x + y)[..k] == x[..k]
  {
  }

  /**
   * Picking a day of a four-digit year stores an instant whose input text
   * denotes that same day again: the date input shows what was picked.
   */
  lemma PickedDateShown(value: string)
    requires ParseDate(value).Some? && ParseDate(value).value.year <= 9999
    ensures var t := PickedInstant(value).value;
      var shown := FormatDateForInput(IsoText(t), ParseIso(IsoText(t)));
      shown.Ok? && ParseDate(shown.value) == ParseDate(value)
  {
    var d := ParseDate(value).value;
    var t := DayNumber(d) * MsPerDay;
    assert t / MsPerDay == DayNumber(d);
    CivilOfDayNumber(d);
    DaysBeforeYearGrows(d.year, 10000);
    EpochDays();
    assert DayNumber(d) < 3652059;
    IsoRoundTrip(t);
    DateTextReadsBack(d);
  }
}
