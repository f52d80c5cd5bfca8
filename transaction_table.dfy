/**
 * The transactions table the backend reads: one row per transaction, its
 * timestamp split into the calendar date and the milliseconds since midnight.
 */
module TransactionTable {
  import opened Wrappers
  import opened Dates

  datatype Transaction = Transaction(transactionId: nat, userId: nat, amount: real, transactionType: string,
                                     vendor: string, description: string, categoryId: Option<nat>,
                                     date: Date, time: nat)

  /** a's transaction_date is not earlier than b's: the order of ORDER BY transaction_date DESC. */
  predicate NewerOrSame(a: Transaction, b: Transaction)
  {
    Before(b.date, a.date) || (a.date == b.date && a.time >= b.time)
  }

  lemma NewestFirstIsTotalPreorder()
    ensures forall a, b :: NewerOrSame(a, b) || NewerOrSame(b, a)
    ensures forall a, b, c :: NewerOrSame(a, b) && NewerOrSame(b, c) ==> NewerOrSame(a, c)
  {
  }
}
