/**
 * The transactions slice of the client store. The state record is the class
 * TransactionStore; each reducer and each pending / fulfilled / rejected case
 * of the transaction thunks is a method, with the thunk's result as its
 * argument. The list values the fulfilled cases build (prepend, replace by id,
 * remove by id) are functions with their own lemmas.
 */
module TransactionSlice {
  import opened Wrappers
  import opened Dates

  /**
   * A transaction as the client holds it. `amount` is what Number() reads from
   * the JSON field (None for NaN); `transactionDate` is the date text the
   * server sends and `date` the local calendar date `new Date(transaction_date)`
   * denotes. `category` is a field the item view reads although the server
   * never sends it.
   */
  datatype Transaction = Transaction(transactionId: int, userId: int, amount: Option<real>, transactionType: string,
                                     vendor: Option<string>, description: Option<string>, transactionDate: string,
                                     date: Date, paymentMethod: Option<string>, categoryId: int,
                                     categoryName: string, category: Option<string>)

  /**
   * What the transaction form submits: the amount parseFloat reads (None for
   * NaN), the category, the vendor, the type and the date text.
   */
  datatype TransactionInput = TransactionInput(amount: Option<real>, category: string, vendor: string,
                                               transactionType: string, transactionDate: string)

  /** `ts.map(t => t.transaction_id === u.transaction_id ? u : t)` */
  function ReplaceById(ts: seq<Transaction>, u: Transaction): (r: seq<Transaction>)
    ensures |r| == |ts|
    ensures forall i :: 0 <= i < |ts| && ts[i].transactionId == u.transactionId ==> r[i] == u
    ensures forall i :: 0 <= i < |ts| && ts[i].transactionId != u.transactionId ==> r[i] == ts[i]
  {
    if ts == [] then []
    else [if ts[0].transactionId == u.transactionId then u else ts[0]] + ReplaceById(ts[1..], u)
  }

  /** `ts.filter(t => t.transaction_id !== id)` */
  function RemoveById(ts: seq<Transaction>, id: int): (r: seq<Transaction>)
    ensures |r| <= |ts|
    ensures forall t :: t in r ==> t in ts && t.transactionId != id
    ensures forall t :: t in ts && t.transactionId != id ==> t in r
  {
    if ts == [] then []
    else (if ts[0].transactionId != id then [ts[0]] else []) + RemoveById(ts[1..], id)
  }

  /** Replacing keeps every position's id, so replacing twice is replacing once. */
  lemma ReplaceByIdKeepsIds(ts: seq<Transaction>, u: Transaction)
    ensures forall i :: 0 <= i < |ts| ==> ReplaceById(ts, u)[i].transactionId == ts[i].transactionId
    ensures ReplaceById(ReplaceById(ts, u), u) == ReplaceById(ts, u)
  {
  }

  /** Removing by id distributes over concatenation: what survives keeps its order. */
  lemma {:induction false} RemoveByIdAppend(a: seq<Transaction>, b: seq<Transaction>, id: int)
    ensures RemoveById(a + b, id) == RemoveById(a, id) + RemoveById(b, id)
    decreases |a|
  {
    if a != [] {
      assert (a + b)[1..] == a[1..] + b;
      RemoveByIdAppend(a[1..], b, id);
    } else {
      assert a + b == b;
    }
  }

  /** A list without the id is left as it is, so removing twice is removing once. */
  lemma {:induction false} RemoveByIdAbsent(ts: seq<Transaction>, id: int)
    requires forall i :: 0 <= i < |ts| ==> ts[i].transactionId != id
    ensures RemoveById(ts, id) == ts
    decreases |ts|
  {
    if ts != [] {
      RemoveByIdAbsent(ts[1..], id);
    }
  }

  lemma RemoveByIdIdempotent(ts: seq<Transaction>, id: int)
    ensures RemoveById(RemoveById(ts, id), id) == RemoveById(ts, id)
  {
    var r := RemoveById(ts, id);
    forall i | 0 <= i < |r|
      ensures r[i].transactionId != id
    {
      assert r[i] in r;
    }
    RemoveByIdAbsent(r, id);
  }

  /** Adding a transaction with a fresh id and then removing that id gives the list back. */
  lemma AddThenRemove(t: Transaction, ts: seq<Transaction>)
    requires forall i :: 0 <= i < |ts| ==> ts[i].transactionId != t.transactionId
    ensures RemoveById([t] + ts, t.transactionId) == ts
  {
    RemoveByIdAppend([t], ts, t.transactionId);
    RemoveByIdAbsent(ts, t.transactionId);
  }

  const FetchFailed: string := "Failed to load transactions. Please try again later."
  const AddFailed: string := "Failed to create transaction. Please try again."
  const EditFailed: string := "Failed to update transaction. Please try again."
  const RemoveFailed: string := "Failed to delete transaction. Please try again."

  /**
   * A thunk's outcome: the service's reply when it answers, otherwise a
   * rejection with the thunk's fixed message.
   */
  function ThunkResult<T>(reply: Option<T>, message: string): (r: Result<T>)
    ensures r.Ok? <==> reply.Some?
    ensures r.Ok? ==> r.value == reply.value
    ensures r.Err? ==> r.error == message
  {
    match reply
    case Some(v) => Ok(v)
    case None => Err(message)
  }

  /** removeTransaction fulfils with the id it was given, not with the server's answer. */
  function RemoveThunk(id: int, requestFails: bool): (r: Result<int>)
    ensures r.Ok? <==> !requestFails
    ensures r.Ok? ==> r.value == id
    ensures r.Err? ==> r.error == RemoveFailed
  {
    if requestFails then Err(RemoveFailed) else Ok(id)
  }

  /** The transactions slice state. */
  class TransactionStore {
    var transactions: seq<Transaction>
    var loading: bool
    var error: Option<string>
    var isFormVisible: bool
    var editingTransaction: Option<Transaction>

    /** initialState */
    constructor ()
      ensures transactions == [] && loading && error.None? && !isFormVisible && editingTransaction.None?
    {
      transactions, loading, error := [], true, None;
      isFormVisible, editingTransaction := false, None;
    }

    /** showTransactionForm: the form opens for a new transaction. */
    method ShowTransactionForm()
      modifies this`isFormVisible, this`editingTransaction
      ensures isFormVisible && editingTransaction.None?
    {
      isFormVisible, editingTransaction := true, None;
    }

    /** hideTransactionForm */
    method HideTransactionForm()
      modifies this`isFormVisible, this`editingTransaction
      ensures !isFormVisible && editingTransaction.None?
    {
      isFormVisible, editingTransaction := false, None;
    }

    /** setEditingTransaction: the form opens on the given transaction. */
    method SetEditingTransaction(t: Option<Transaction>)
      modifies this`isFormVisible, this`editingTransaction
      ensures isFormVisible && editingTransaction == t
    {
      editingTransaction, isFormVisible := t, true;
    }

    /** clearTransactionError */
    method ClearTransactionError()
      modifies this`error
      ensures error.None?
    {
      error := None;
    }

    /** fetchTransactions.pending */
    method FetchPending()
      modifies this`loading, this`error
      ensures loading && error.None?
    {
      loading, error := true, None;
    }

    /** fetchTransactions.fulfilled: the list is replaced by the server's. */
    method FetchFulfilled(ts: seq<Transaction>)
      modifies this`loading, this`transactions
      ensures !loading && transactions == ts
    {
      loading, transactions := false, ts;
    }

    /** fetchTransactions.rejected */
    method FetchRejected(message: string)
      modifies this`loading, this`error
      ensures !loading && error == Some(message)
    {
      loading, error := false, Some(message);
    }

    /** addTransaction.pending, editTransaction.pending and removeTransaction.pending only clear the error. */
    method MutationPending()
      modifies this`error
      ensures error.None?
    {
      error := None;
    }

    /** addTransaction.rejected, editTransaction.rejected and removeTransaction.rejected: the list is untouched. */
    method MutationRejected(message: string)
      modifies this`error
      ensures error == Some(message)
    {
      error := Some(message);
    }

    /** addTransaction.fulfilled: the new transaction goes first and the form closes. */
    method AddFulfilled(t: Transaction)
      modifies this`transactions, this`isFormVisible
      ensures |transactions| == |old(transactions)| + 1
      ensures transactions[0] == t && transactions[1..] == old(transactions)
      ensures !isFormVisible
    {
      transactions := [t] + transactions;
      isFormVisible := false;
    }

    /**
     * editTransaction.fulfilled: every entry with the reply's id becomes the
     * reply, the rest stay where they were; the form closes and editing ends.
     */
    method EditFulfilled(u: Transaction)
      modifies this`transactions, this`isFormVisible, this`editingTransaction
      ensures transactions == ReplaceById(old(transactions), u)
      ensures |transactions| == |old(transactions)|
      ensures forall i :: 0 <= i < |transactions| ==>
        transactions[i] == (if old(transactions)[i].transactionId == u.transactionId then u else old(transactions)[i])
      ensures !isFormVisible && editingTransaction.None?
    {
      transactions := ReplaceById(transactions, u);
      isFormVisible, editingTransaction := false, None;
    }

    /** removeTransaction.fulfilled: every entry with the id goes, the rest keep their order. */
    method RemoveFulfilled(id: int)
      modifies this`transactions
      ensures transactions == RemoveById(old(transactions), id)
      ensures forall t :: t in transactions <==> t in old(transactions) && t.transactionId != id
    {
      transactions := RemoveById(transactions, id);
    }
  }
}
