/**
 * The stand-alone transaction history list: its own transaction record,
 * grouping by "<short month> <day>", the expense test and the colour class
 * of each category type.
 */
module TransactionList {
  import opened Grouping
  import opened DayLabels
  import opened Dates

  /**
   * The list's transaction record. `date` is the text the record carries and
   * `localDate` the local calendar date `new Date(date)` denotes.
   */
  datatype ListTransaction = ListTransaction(id: string, description: string, date: string, localDate: Date,
                                             category: string, categoryType: string, paymentMethod: string,
                                             amount: real)

  function DayKey(t: ListTransaction): string
  {
    MonthDayLabel(t.localDate)
  }

  /**
   * groupTransactionsByDate: the labels are distinct, every transaction is in
   * the group of its label, and each group holds exactly the transactions
   * with its label, in input order.
   */
  method GroupTransactionsByDate(ts: seq<ListTransaction>) returns (gs: seq<Group<ListTransaction>>)
    ensures forall i, j :: 0 <= i < j < |gs| ==> gs[i].key != gs[j].key
    ensures forall i :: 0 <= i < |gs| ==> gs[i].members == WithKey(ts, DayKey, gs[i].key) && gs[i].members != []
    ensures forall t :: t in ts ==> exists i :: 0 <= i < |gs| && gs[i].key == DayKey(t) && t in gs[i].members
  {
    gs := GroupBy(ts, DayKey);
  }

  /** isExpense: every category type but "income" counts as an expense. */
  predicate IsExpense(t: ListTransaction)
  {
    t.categoryType != "income"
  }

  const GrayClass: string := "bg-gray-100 text-gray-800"

  /** getCategoryBgColor */
  function CategoryBgColor(categoryType: string): (r: string)
  {
    match categoryType
    case "income" => "bg-green-100 text-green-800"
    case "bills" => "bg-blue-100 text-blue-800"
    case "personal" => "bg-pink-100 text-pink-800"
    case "food" => "bg-yellow-100 text-yellow-800"
    case "transport" => "bg-purple-100 text-purple-800"
    case "shopping" => "bg-indigo-100 text-indigo-800"
    case "entertainment" => "bg-orange-100 text-orange-800"
    case "health" => "bg-teal-100 text-teal-800"
    case _ => GrayClass
  }

  /** The types with a colour of their own: every other type, "expense" included, is gray. */
  predicate HasOwnColor(categoryType: string)
  {
    categoryType in ["income", "bills", "personal", "food", "transport", "shopping", "entertainment", "health"]
  }

  /** Each of the eight named types has a class other than the gray default; every other type, "expense" included, is gray. */
  lemma CategoryBgColorDefault(a: string)
    ensures HasOwnColor(a) <==> CategoryBgColor(a) != GrayClass
  {
  }

  /** The green class marks exactly the income type, the one type that is not an expense. */
  lemma GreenIffNotExpense(t: ListTransaction)
    ensures !IsExpense(t) <==> CategoryBgColor(t.categoryType) == "bg-green-100 text-green-800"
  {
  }
}
