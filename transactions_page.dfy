/**
 * The transactions page: its history grouped by "<short month> <day>", and
 * the routing of the form's submission to the create or the update action.
 */
module TransactionsPage {
  import opened Wrappers
  import opened Grouping
  import opened DayLabels
  import opened TransactionSlice

  /** The group label of a transaction's date. */
  function DayKey(t: Transaction): string
  {
    MonthDayLabel(t.date)
  }

  /**
   * groupedTransactions: every transaction lands in exactly the group of its
   * label, the labels are distinct, and each group keeps input order.
   */
  method GroupedTransactions(ts: seq<Transaction>) returns (gs: seq<Group<Transaction>>)
    ensures forall i, j :: 0 <= i < j < |gs| ==> gs[i].key != gs[j].key
    ensures forall i :: 0 <= i < |gs| ==> gs[i].members == WithKey(ts, DayKey, gs[i].key) && gs[i].members != []
    ensures forall t :: t in ts ==> exists i :: 0 <= i < |gs| && gs[i].key == DayKey(t) && t in gs[i].members
  {
    gs := GroupBy(ts, DayKey);
  }

  /**
   * The label has no year: transactions on the same month and day of
   * different years share a group, and different month-days never do.
   */
  lemma SameDayOtherYearSameGroup(a: Transaction, b: Transaction)
    requires 1 <= a.date.month <= 12 && 1 <= b.date.month <= 12 && a.date.day >= 0 && b.date.day >= 0
    ensures DayKey(a) == DayKey(b) <==> a.date.month == b.date.month && a.date.day == b.date.day
  {
    MonthDayLabelInjective(a.date, b.date);
  }

  /** What a handler dispatches. */
  datatype Dispatch = AddTransaction(input: TransactionInput)
                    | EditTransaction(id: int, input: TransactionInput)
                    | Nothing

  /** handleUpdateTransaction: nothing without a transaction being edited. */
  function HandleUpdate(editing: Option<Transaction>, input: TransactionInput): (r: Dispatch)
    ensures editing.None? <==> r.Nothing?
    ensures editing.Some? ==> r == EditTransaction(editing.value.transactionId, input)
  {
    match editing
    case None => Nothing
    case Some(t) => EditTransaction(t.transactionId, input)
  }

  /** The form's onSubmit: the update handler while editing, the create handler otherwise. */
  function Submit(editing: Option<Transaction>, input: TransactionInput): (r: Dispatch)
  {
    if editing.Some? then HandleUpdate(editing, input) else AddTransaction(input)
  }

  /** A submission always dispatches, editing exactly when a transaction is being edited, and carries the form's input. */
  lemma SubmitRoutes(editing: Option<Transaction>, input: TransactionInput)
    ensures !Submit(editing, input).Nothing?
    ensures Submit(editing, input).EditTransaction? <==> editing.Some?
    ensures Submit(editing, input).input == input
  {
  }
}
