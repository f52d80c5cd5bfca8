/**
 * The dashboard endpoint of the backend: net cash over all transactions, the
 * five newest transactions, up to five budgets of the current month with
 * their spending, the month's budget progress and the month's spending by
 * category with percentages. The tables and the current date are parameters.
 */
module DashboardController {
  import opened Wrappers
  import opened Dates
  import opened Js
  import opened Sorting
  import opened TransactionTable
  import BC = BudgetController

  // ---------------------------------------------------------------- month window

  function FirstDay(now: Date): Date
  {
    Date(now.year, now.month, 1)
  }

  function LastDay(now: Date): Date
    requires 1 <= now.month <= 12
  {
    Date(now.year, now.month, DaysInMonth(now.year, now.month))
  }

  /** The transaction's instant. */
  function At(t: Transaction): int
    requires ValidDate(t.date)
  {
    StartOfDay(t.date) + t.time
  }

  /**
   * `transaction_date BETWEEN monthStart AND monthEnd` as written: monthEnd is
   * midnight opening the last day of the month.
   */
  predicate InWindowAsWritten(t: Transaction, now: Date)
    requires ValidDate(t.date) && ValidDate(now)
  {
    StartOfDay(FirstDay(now)) <= At(t) <= StartOfDay(LastDay(now))
  }

  /** The transaction falls in the current calendar month: the window the queries are meant to cover. */
  predicate InMonth(t: Transaction, now: Date)
  {
    t.date.year == now.year && t.date.month == now.month
  }

  /** Distinct valid dates compare one way or the other. */
  lemma DatesCompare(a: Date, b: Date)
    requires ValidDate(a) && ValidDate(b)
    ensures a == b || DayNumber(a) < DayNumber(b) || DayNumber(b) < DayNumber(a)
    ensures Before(a, b) ==> DayNumber(a) < DayNumber(b)
  {
    if Before(a, b) {
      DayNumberOrder(a, b);
    } else if Before(b, a) {
      DayNumberOrder(b, a);
    }
  }

  /**
   * The written window is the month without the last day: only a transaction
   * stamped exactly at midnight on the last day gets in.
   */
  lemma WindowAsWrittenMissesLastDay(t: Transaction, now: Date)
    requires ValidDate(t.date) && ValidDate(now) && t.time < MsPerDay
    ensures InWindowAsWritten(t, now) <==> InMonth(t, now) && (t.date != LastDay(now) || t.time == 0)
  {
    var first, last := FirstDay(now), LastDay(now);
    DatesCompare(t.date, first);
    DatesCompare(t.date, last);
    DatesCompare(first, last);
    if InMonth(t, now) {
      assert !Before(t.date, first) && !Before(last, t.date);
      if t.date != first {
        assert Before(first, t.date);
      }
      if t.date != last {
        assert Before(t.date, last);
      }
    } else if Before(t.date, first) {
      assert DayNumber(t.date) < DayNumber(first);
    } else {
      assert Before(last, t.date);
      DayNumberOrder(last, t.date);
    }
  }

  /** A transaction at 10:00 on 31 January 2025 is left out of January's window. */
  lemma LastDayTransactionMissed()
    ensures var t := Transaction(1, 1, 50.0, "debit", "", "", Some(1), Date(2025, 1, 31), 36_000_000);
      ValidDate(t.date) && InMonth(t, Date(2025, 1, 15)) && !InWindowAsWritten(t, Date(2025, 1, 15))
  {
    var t := Transaction(1, 1, 50.0, "debit", "", "", Some(1), Date(2025, 1, 31), 36_000_000);
    WindowAsWrittenMissesLastDay(t, Date(2025, 1, 15));
  }

  // ---------------------------------------------------------------- sums over transactions

  /** COALESCE(SUM(amount), 0) over the user's transactions of one type. */
  function TypeTotal(ts: seq<Transaction>, user: nat, kind: string): real
  {
    if ts == [] then 0.0
    else
      var t := ts[|ts| - 1];
      TypeTotal(ts[..|ts| - 1], user, kind) + (if t.userId == user && t.transactionType == kind then t.amount else 0.0)
  }

  /** The user's debits of the current month (all categories). */
  function MonthDebit(ts: seq<Transaction>, user: nat, now: Date): real
  {
    if ts == [] then 0.0
    else
      var t := ts[|ts| - 1];
      MonthDebit(ts[..|ts| - 1], user, now) + (if IsMonthDebit(t, user, now) then t.amount else 0.0)
  }

  predicate IsMonthDebit(t: Transaction, user: nat, now: Date)
  {
    t.userId == user && t.transactionType == "debit" && InMonth(t, now)
  }

  /** The user's debits of the current month in one category. */
  function CategoryDebit(ts: seq<Transaction>, user: nat, catId: nat, now: Date): real
  {
    if ts == [] then 0.0
    else
      var t := ts[|ts| - 1];
      CategoryDebit(ts[..|ts| - 1], user, catId, now)
      + (if IsMonthDebit(t, user, now) && t.categoryId == Some(catId) then t.amount else 0.0)
  }

  /** The category name a transaction joins to, if its category exists. */
  function NameOf(t: Transaction, cats: seq<string>): Option<string>
  {
    if t.categoryId.Some? && 1 <= t.categoryId.value <= |cats| then Some(cats[t.categoryId.value - 1]) else None
  }

  /** The month's debits that join to a category named `name`. */
  function NamedDebit(ts: seq<Transaction>, user: nat, cats: seq<string>, now: Date, name: string): real
  {
    if ts == [] then 0.0
    else
      var t := ts[|ts| - 1];
      NamedDebit(ts[..|ts| - 1], user, cats, now, name)
      + (if IsMonthDebit(t, user, now) && NameOf(t, cats) == Some(name) then t.amount else 0.0)
  }

  /** The month's debits that join to some category. */
  function JoinedDebit(ts: seq<Transaction>, user: nat, cats: seq<string>, now: Date): real
  {
    if ts == [] then 0.0
    else
      var t := ts[|ts| - 1];
      JoinedDebit(ts[..|ts| - 1], user, cats, now) + (if IsMonthDebit(t, user, now) && NameOf(t, cats).Some? then t.amount else 0.0)
  }

  // ---------------------------------------------------------------- recent transactions

  /** A row of the recent list: the transaction and its category's name (LEFT JOIN). */
  datatype RecentTransaction = RecentTransaction(transaction: Transaction, categoryName: Option<string>)

  function NewestFirst(): (Transaction, Transaction) -> bool
  {
    (a: Transaction, b: Transaction) => NewerOrSame(a, b)
  }

  /** The user's transactions, newest first. */
  function NewestOfUser(ts: seq<Transaction>, user: nat): seq<Transaction>
  {
    SortBy(Filter(ts, (t: Transaction) => t.userId == user), NewestFirst())
  }

  /** ORDER BY transaction_date DESC LIMIT 5. */
  function Recent(ts: seq<Transaction>, user: nat): (r: seq<Transaction>)
  {
    var all := NewestOfUser(ts, user);
    if |all| <= 5 then all else all[..5]
  }

  /** The recent list holds at most five of the user's transactions, newest first. */
  lemma RecentShape(ts: seq<Transaction>, user: nat)
    ensures |Recent(ts, user)| <= 5 && SortedBy(Recent(ts, user), NewestFirst())
    ensures forall k :: 0 <= k < |Recent(ts, user)| ==> Recent(ts, user)[k].userId == user && Recent(ts, user)[k] in ts
  {
    var mine := Filter(ts, (t: Transaction) => t.userId == user);
    var all := NewestOfUser(ts, user);
    NewestFirstIsTotalPreorder();
    SortBySorted(mine, NewestFirst());
    var r := Recent(ts, user);
    forall k | 0 <= k < |r|
      ensures r[k].userId == user && r[k] in ts
    {
      assert r[k] == all[k] && all[k] in multiset(mine);
    }
  }

  /** None of the user's transactions left out of the recent list is newer than a listed one. */
  lemma RecentAreNewest(ts: seq<Transaction>, user: nat, x: Transaction)
    requires x in ts && x.userId == user && x !in Recent(ts, user)
    ensures forall k :: 0 <= k < |Recent(ts, user)| ==> NewerOrSame(Recent(ts, user)[k], x)
  {
    var mine := Filter(ts, (t: Transaction) => t.userId == user);
    var all := NewestOfUser(ts, user);
    NewestFirstIsTotalPreorder();
    SortBySorted(mine, NewestFirst());
    var r := Recent(ts, user);
    assert x in mine;
    assert x in multiset(all);
    var j :| 0 <= j < |all| && all[j] == x;
    assert j >= |r|;
    forall k | 0 <= k < |r|
      ensures NewerOrSame(r[k], x)
    {
      assert r[k] == all[k];
    }
  }

  // ---------------------------------------------------------------- budgets of the month

  /** DATE_TRUNC('month', month_start) = DATE_TRUNC('month', firstDayOfMonth). */
  predicate TruncMonthMatches(b: BC.Budget, user: nat, now: Date)
  {
    b.userId == user && b.monthStart.year == FirstDay(now).year && b.monthStart.month == FirstDay(now).month
  }

  /** EXTRACT(YEAR FROM month_start) = year AND EXTRACT(MONTH FROM month_start) = month. */
  predicate ExtractMatches(b: BC.Budget, user: nat, now: Date)
  {
    b.userId == user && b.monthStart.year == now.year && b.monthStart.month == now.month
  }

  /** The first budgets query (the join to categories always succeeds: budgets refer to existing categories). */
  function MonthBudgets(budgets: seq<BC.Budget>, user: nat, now: Date): seq<BC.Budget>
  {
    var rows := Filter(budgets, (b: BC.Budget) => TruncMonthMatches(b, user, now));
    if |rows| <= 5 then rows else rows[..5]
  }

  /** The fallback budgets query. */
  function FallbackBudgets(budgets: seq<BC.Budget>, user: nat, now: Date): seq<BC.Budget>
  {
    var rows := Filter(budgets, (b: BC.Budget) => ExtractMatches(b, user, now));
    if |rows| <= 5 then rows else rows[..5]
  }

  /** Both budget queries select the same rows, so the fallback never finds what the first query missed. */
  lemma {:induction false} FallbackFindsNothingNew(budgets: seq<BC.Budget>, user: nat, now: Date)
    ensures FallbackBudgets(budgets, user, now) == MonthBudgets(budgets, user, now)
  {
    SameFilter(budgets, (b: BC.Budget) => ExtractMatches(b, user, now), (b: BC.Budget) => TruncMonthMatches(b, user, now));
  }

  /** Filters by predicates that agree everywhere give the same rows. */
  lemma {:induction false} SameFilter<T>(s: seq<T>, p: T -> bool, q: T -> bool)
    requires forall x :: p(x) == q(x)
    ensures Filter(s, p) == Filter(s, q)
  {
    if s != [] {
      SameFilter(s[1..], p, q);
    }
  }

  /** COALESCE(SUM(budget_limit), 0) over the user's budgets of the month (no limit of five). */
  function MonthBudgetTotal(budgets: seq<BC.Budget>, user: nat, now: Date): real
  {
    if budgets == [] then 0.0
    else
      var b := budgets[|budgets| - 1];
      MonthBudgetTotal(budgets[..|budgets| - 1], user, now) + (if ExtractMatches(b, user, now) then b.budgetLimit else 0.0)
  }

  /** One budget card: budget_id, budget_limit, category_name, spent, month_start. */
  datatype BudgetCard = BudgetCard(budgetId: nat, budgetLimit: real, categoryName: string, spent: real, monthStart: Date)

  function CategoryName(cats: seq<string>, id: nat): string
  {
    if 1 <= id <= |cats| then cats[id - 1] else ""
  }

  /** budgetProgress: the month's debits as a rounded percentage of the month's budgets, uncapped. */
  function Progress(totalBudget: real, totalSpent: real): (p: int)
    ensures totalBudget <= 0.0 ==> p == 0
    ensures totalBudget > 0.0 ==> (p as real) - 0.5 <= totalSpent / totalBudget * 100.0 < (p as real) + 0.5
  {
    if totalBudget > 0.0 then Round(totalSpent / totalBudget * 100.0) else 0
  }

  /** Spending twice the budget reads 200 percent: the progress is not capped at 100. */
  lemma ProgressNotCapped()
    ensures Progress(100.0, 200.0) == 200
  {
    assert 200.0 / 100.0 * 100.0 == 200.0;
  }

  // ---------------------------------------------------------------- category breakdown

  datatype CategoryAmount = CategoryAmount(name: string, amount: real)

  /** Adds an amount to the group of a name, opening the group at the end when the name is new. */
  function AddTo(g: seq<CategoryAmount>, name: string, amount: real): (r: seq<CategoryAmount>)
  {
    if g == [] then [CategoryAmount(name, amount)]
    else if g[0].name == name then [g[0].(amount := g[0].amount + amount)] + g[1..]
    else [g[0]] + AddTo(g[1..], name, amount)
  }

  /** GROUP BY category_name with SUM(amount), over the month's debits joined to a category. */
  function Groups(ts: seq<Transaction>, user: nat, cats: seq<string>, now: Date): seq<CategoryAmount>
  {
    if ts == [] then []
    else
      var t := ts[|ts| - 1];
      var g := Groups(ts[..|ts| - 1], user, cats, now);
      if IsMonthDebit(t, user, now) && NameOf(t, cats).Some? then AddTo(g, NameOf(t, cats).value, t.amount) else g
  }

  /** The sum of the amounts of the groups named `name`. */
  function AmountOf(g: seq<CategoryAmount>, name: string): real
  {
    if g == [] then 0.0 else (if g[0].name == name then g[0].amount else 0.0) + AmountOf(g[1..], name)
  }

  function Total(g: seq<CategoryAmount>): real
  {
    if g == [] then 0.0 else g[0].amount + Total(g[1..])
  }

  predicate DistinctNames(g: seq<CategoryAmount>)
  {
    forall i, j :: 0 <= i < j < |g| ==> g[i].name != g[j].name
  }

  lemma {:induction false} AddToAdds(g: seq<CategoryAmount>, name: string, amount: real, other: string)
    ensures AmountOf(AddTo(g, name, amount), other) == AmountOf(g, other) + (if other == name then amount else 0.0)
    ensures Total(AddTo(g, name, amount)) == Total(g) + amount
  {
    if g != [] && g[0].name != name {
      AddToAdds(g[1..], name, amount, other);
    }
  }

  /** The groups' names, in order. */
  function Names(g: seq<CategoryAmount>): (r: seq<string>)
    ensures |r| == |g| && forall k :: 0 <= k < |g| ==> r[k] == g[k].name
  {
    if g == [] then [] else [g[0].name] + Names(g[1..])
  }

  /** Adding to a group leaves the names as they were when the name has a group, else appends it. */
  lemma {:induction false} AddToNameOrder(g: seq<CategoryAmount>, name: string, amount: real)
    ensures Names(AddTo(g, name, amount)) == if name in Names(g) then Names(g) else Names(g) + [name]
  {
    if g != [] && g[0].name != name {
      AddToNameOrder(g[1..], name, amount);
      assert Names(g) == [g[0].name] + Names(g[1..]);
      assert name in Names(g) <==> name in Names(g[1..]);
    } else if g != [] {
      assert name == Names(g)[0];
    }
  }

  /**
   * Adding to a group keeps one group per name: the names stay as they were
   * when the name has a group, and otherwise the name is appended.
   */
  lemma AddToNames(g: seq<CategoryAmount>, name: string, amount: real)
    requires DistinctNames(g)
    ensures Names(AddTo(g, name, amount)) == if name in Names(g) then Names(g) else Names(g) + [name]
    ensures DistinctNames(AddTo(g, name, amount))
  {
    AddToNameOrder(g, name, amount);
    var r, ns := AddTo(g, name, amount), Names(g);
    forall i, j | 0 <= i < j < |r|
      ensures r[i].name != r[j].name
    {
      assert Names(r)[i] == r[i].name && Names(r)[j] == r[j].name;
      assert ns[i] == g[i].name;
      if j < |g| {
        assert ns[j] == g[j].name;
      }
    }
  }

  /** Each group holds the month's debits of its category, and no name has two groups. */
  lemma {:induction false} GroupsSum(ts: seq<Transaction>, user: nat, cats: seq<string>, now: Date)
    ensures var g := Groups(ts, user, cats, now);
      DistinctNames(g)
      && Total(g) == JoinedDebit(ts, user, cats, now)
      && forall name :: AmountOf(g, name) == NamedDebit(ts, user, cats, now, name)
  {
    if ts != [] {
      var init := ts[..|ts| - 1];
      var t := ts[|ts| - 1];
      GroupsSum(init, user, cats, now);
      var g0 := Groups(init, user, cats, now);
      if IsMonthDebit(t, user, now) && NameOf(t, cats).Some? {
        AddToNames(g0, NameOf(t, cats).value, t.amount);
        forall name
          ensures AmountOf(Groups(ts, user, cats, now), name) == NamedDebit(ts, user, cats, now, name)
        {
          AddToAdds(g0, NameOf(t, cats).value, t.amount, name);
        }
        AddToAdds(g0, NameOf(t, cats).value, t.amount, "");
      }
    }
  }

  /** With distinct names a group's amount is the name's whole sum. */
  lemma {:induction false} EntryIsWholeSum(g: seq<CategoryAmount>, k: nat)
    requires DistinctNames(g) && k < |g|
    ensures g[k].amount == AmountOf(g, g[k].name)
  {
    if k == 0 {
      NoOtherEntry(g[1..], g[0].name);
    } else {
      EntryIsWholeSum(g[1..], k - 1);
    }
  }

  lemma {:induction false} NoOtherEntry(g: seq<CategoryAmount>, name: string)
    requires forall k :: 0 <= k < |g| ==> g[k].name != name
    ensures AmountOf(g, name) == 0.0
  {
    if g != [] {
      NoOtherEntry(g[1..], name);
    }
  }

  function ByAmountDesc(): (CategoryAmount, CategoryAmount) -> bool
  {
    (a: CategoryAmount, b: CategoryAmount) => a.amount >= b.amount
  }

  lemma {:induction false} InsertKeepsTotal(x: CategoryAmount, s: seq<CategoryAmount>)
    ensures Total(Insert(x, s, ByAmountDesc())) == x.amount + Total(s)
  {
    if s != [] && !ByAmountDesc()(x, s[0]) {
      InsertKeepsTotal(x, s[1..]);
    }
  }

  lemma {:induction false} SortKeepsTotal(s: seq<CategoryAmount>)
    ensures Total(SortBy(s, ByAmountDesc())) == Total(s)
  {
    if s != [] {
      SortKeepsTotal(s[1..]);
      InsertKeepsTotal(s[0], SortBy(s[1..], ByAmountDesc()));
    }
  }

  /** Some debit of the month joins to a category named `name`. */
  ghost predicate HasDebitNamed(ts: seq<Transaction>, user: nat, cats: seq<string>, now: Date, name: string)
  {
    exists i :: 0 <= i < |ts| && IsMonthDebit(ts[i], user, now) && NameOf(ts[i], cats) == Some(name)
  }

  /** GROUP BY opens a group for exactly the names some joined debit of the month carries. */
  lemma {:induction false} GroupNames(ts: seq<Transaction>, user: nat, cats: seq<string>, now: Date, name: string)
    ensures name in Names(Groups(ts, user, cats, now)) <==> HasDebitNamed(ts, user, cats, now, name)
  {
    if ts != [] {
      var init, t := ts[..|ts| - 1], ts[|ts| - 1];
      GroupNames(init, user, cats, now, name);
      var g0 := Groups(init, user, cats, now);
      if IsMonthDebit(t, user, now) && NameOf(t, cats).Some? {
        AddToNameOrder(g0, NameOf(t, cats).value, t.amount);
      }
      HasDebitAppend(ts, init, t, user, cats, now, name);
    }
  }

  /** One more transaction: a name is carried by a debit of the longer list iff by one before or by the new one. */
  lemma HasDebitAppend(ts: seq<Transaction>, init: seq<Transaction>, t: Transaction, user: nat, cats: seq<string>, now: Date, name: string)
    requires |ts| > 0 && init == ts[..|ts| - 1] && t == ts[|ts| - 1]
    ensures HasDebitNamed(ts, user, cats, now, name)
      <==> HasDebitNamed(init, user, cats, now, name) || (IsMonthDebit(t, user, now) && NameOf(t, cats) == Some(name))
  {
    if HasDebitNamed(ts, user, cats, now, name) {
      var i :| 0 <= i < |ts| && IsMonthDebit(ts[i], user, now) && NameOf(ts[i], cats) == Some(name);
      if i < |init| {
        assert init[i] == ts[i];
      }
    }
    if HasDebitNamed(init, user, cats, now, name) {
      var i :| 0 <= i < |init| && IsMonthDebit(init[i], user, now) && NameOf(init[i], cats) == Some(name);
      assert ts[i] == init[i];
    }
  }

  /** The groups' names as a set of members: the names of the sequence's elements. */
  lemma NamesMembers(g: seq<CategoryAmount>, name: string)
    ensures name in Names(g) <==> exists k :: 0 <= k < |g| && g[k].name == name
  {
    if name in Names(g) {
      var k :| 0 <= k < |g| && Names(g)[k] == name;
    }
  }

  /** Inserting a group with a new name into groups with distinct names keeps the names distinct. */
  lemma {:induction false} InsertDistinct(x: CategoryAmount, s: seq<CategoryAmount>)
    requires DistinctNames(s) && forall k :: 0 <= k < |s| ==> s[k].name != x.name
    ensures DistinctNames(Insert(x, s, ByAmountDesc()))
  {
    if s != [] && !ByAmountDesc()(x, s[0]) {
      InsertDistinct(x, s[1..]);
      var r := Insert(x, s[1..], ByAmountDesc());
      forall k | 0 <= k < |r|
        ensures r[k].name != s[0].name
      {
        assert r[k] in multiset(r);
        if r[k] != x {
          assert r[k] in multiset(s[1..]);
          var m :| 0 <= m < |s[1..]| && s[1..][m] == r[k];
          assert s[m + 1] == r[k];
        }
      }
      assert Insert(x, s, ByAmountDesc()) == [s[0]] + r;
    }
  }

  /** Sorting groups with distinct names keeps them distinct. */
  lemma {:induction false} SortDistinct(s: seq<CategoryAmount>)
    requires DistinctNames(s)
    ensures DistinctNames(SortBy(s, ByAmountDesc()))
  {
    if s != [] {
      var rest := SortBy(s[1..], ByAmountDesc());
      SortDistinct(s[1..]);
      forall k | 0 <= k < |rest|
        ensures rest[k].name != s[0].name
      {
        assert rest[k] in multiset(rest);
        assert rest[k] in multiset(s[1..]);
        var m :| 0 <= m < |s[1..]| && s[1..][m] == rest[k];
        assert s[m + 1] == rest[k];
      }
      InsertDistinct(s[0], rest);
    }
  }

  /** A sorted sequence holds the same elements as the original, so the same names. */
  lemma SortNames(s: seq<CategoryAmount>, name: string)
    ensures name in Names(SortBy(s, ByAmountDesc())) <==> name in Names(s)
  {
    var r := SortBy(s, ByAmountDesc());
    NamesMembers(r, name);
    NamesMembers(s, name);
    if name in Names(s) {
      var k :| 0 <= k < |s| && s[k].name == name;
      assert s[k] in multiset(r);
      var m :| 0 <= m < |r| && r[m] == s[k];
    }
    if name in Names(r) {
      var k :| 0 <= k < |r| && r[k].name == name;
      assert r[k] in multiset(s);
      var m :| 0 <= m < |s| && s[m] == r[k];
    }
  }

  /** A row of categoryBreakdown. */
  datatype BreakdownRow = BreakdownRow(name: string, amount: real, percentage: int)

  function Percentage(amount: real, total: real): (p: int)
    ensures total <= 0.0 ==> p == 0
    ensures total > 0.0 ==> (p as real) - 0.5 <= amount / total * 100.0 < (p as real) + 0.5
  {
    if total > 0.0 then Round(amount / total * 100.0) else 0
  }

  /** The sum of the breakdown rows' amounts. */
  function BreakdownTotal(b: seq<BreakdownRow>): real
  {
    if b == [] then 0.0 else b[0].amount + BreakdownTotal(b[1..])
  }

  /** Some breakdown row carries the name. */
  predicate RowNamed(b: seq<BreakdownRow>, name: string)
  {
    exists k :: 0 <= k < |b| && b[k].name == name
  }

  /** A name whose groups add up to something other than 0 has a group. */
  lemma NonzeroHasGroup(g: seq<CategoryAmount>, name: string)
    requires AmountOf(g, name) != 0.0
    ensures name in Names(g)
  {
    NamesMembers(g, name);
    if name !in Names(g) {
      NoOtherEntry(g, name);
    }
  }

  /** The sorted groups: distinct names adding up to the joined debits, one for each name carried by a debit. */
  lemma SortedGroupFacts(ts: seq<Transaction>, user: nat, cats: seq<string>, now: Date)
    ensures var s := SortBy(Groups(ts, user, cats, now), ByAmountDesc());
      && DistinctNames(s)
      && Total(s) == JoinedDebit(ts, user, cats, now)
      && (forall name :: name in Names(s) <==> HasDebitNamed(ts, user, cats, now, name))
      && (forall name :: NamedDebit(ts, user, cats, now, name) != 0.0 ==> name in Names(s))
  {
    var groups := Groups(ts, user, cats, now);
    GroupsSum(ts, user, cats, now);
    SortDistinct(groups);
    SortKeepsTotal(groups);
    forall name
      ensures name in Names(SortBy(groups, ByAmountDesc())) <==> HasDebitNamed(ts, user, cats, now, name)
      ensures NamedDebit(ts, user, cats, now, name) != 0.0 ==> name in Names(SortBy(groups, ByAmountDesc()))
    {
      SortNames(groups, name);
      GroupNames(ts, user, cats, now, name);
      if NamedDebit(ts, user, cats, now, name) != 0.0 {
        NonzeroHasGroup(groups, name);
      }
    }
  }

  /** Rows copying the names and amounts of groups have the groups' total, names and distinctness. */
  lemma {:induction false} RowsMirrorGroups(b: seq<BreakdownRow>, s: seq<CategoryAmount>)
    requires |b| == |s| && forall k :: 0 <= k < |b| ==> b[k].name == s[k].name && b[k].amount == s[k].amount
    ensures BreakdownTotal(b) == Total(s)
    ensures forall name :: RowNamed(b, name) <==> name in Names(s)
    ensures DistinctNames(s) ==> forall i, j :: 0 <= i < j < |b| ==> b[i].name != b[j].name
  {
    if b != [] {
      RowsMirrorGroups(b[1..], s[1..]);
    }
    forall name
      ensures RowNamed(b, name) <==> name in Names(s)
    {
      NamesMembers(s, name);
    }
  }

  /** The dashboard reply. */
  datatype Dashboard = Dashboard(netCash: real, totalCredit: real, totalDebit: real,
                                 recent: seq<RecentTransaction>, budgets: seq<BudgetCard>,
                                 totalBudget: real, totalSpent: real, percentage: int,
                                 breakdown: seq<BreakdownRow>, totalMonthlyExpenses: real)

  /** Cards for the budget rows, in row order: each with its category's debits of the month. */
  method BudgetCards(rows: seq<BC.Budget>, ts: seq<Transaction>, user: nat, cats: seq<string>, now: Date)
    returns (cards: seq<BudgetCard>)
    ensures |cards| == |rows|
    ensures forall k :: 0 <= k < |rows| ==>
      cards[k] == BudgetCard(rows[k].budgetId, rows[k].budgetLimit, CategoryName(cats, rows[k].categoryId),
                             CategoryDebit(ts, user, rows[k].categoryId, now), rows[k].monthStart)
  {
    cards := [];
    for i := 0 to |rows|
      invariant |cards| == i
      invariant forall k :: 0 <= k < i ==>
        cards[k] == BudgetCard(rows[k].budgetId, rows[k].budgetLimit, CategoryName(cats, rows[k].categoryId),
                               CategoryDebit(ts, user, rows[k].categoryId, now), rows[k].monthStart)
    {
      var b := rows[i];
      var spent := CategoryDebit(ts, user, b.categoryId, now);
      cards := cards + [BudgetCard(b.budgetId, b.budgetLimit, CategoryName(cats, b.categoryId), spent, b.monthStart)];
    }
  }

  /** Sums the amounts of the breakdown query's rows. */
  method SumAmounts(g: seq<CategoryAmount>) returns (total: real)
    ensures total == Total(g)
  {
    total := 0.0;
    var i := |g|;
    while i > 0
      invariant 0 <= i <= |g|
      invariant total == Total(g[i..])
    {
      i := i - 1;
      assert g[i..] == [g[i]] + g[i + 1..];
      total := total + g[i].amount;
    }
  }

  /** The breakdown rows, largest amount first, with the month's joined debits as total. */
  method CategoryBreakdown(ts: seq<Transaction>, user: nat, cats: seq<string>, now: Date)
    returns (breakdown: seq<BreakdownRow>, total: real)
    ensures total == JoinedDebit(ts, user, cats, now)
    ensures forall k :: 0 <= k < |breakdown| ==>
      breakdown[k].amount == NamedDebit(ts, user, cats, now, breakdown[k].name)
      && breakdown[k].percentage == Percentage(breakdown[k].amount, total)
    ensures forall i, j :: 0 <= i < j < |breakdown| ==> breakdown[i].amount >= breakdown[j].amount
    ensures BreakdownTotal(breakdown) == total
    ensures forall i, j :: 0 <= i < j < |breakdown| ==> breakdown[i].name != breakdown[j].name
    ensures forall name :: RowNamed(breakdown, name) <==> HasDebitNamed(ts, user, cats, now, name)
    ensures forall name :: NamedDebit(ts, user, cats, now, name) != 0.0 ==> RowNamed(breakdown, name)
  {
    var groups := Groups(ts, user, cats, now);
    var sorted := SortBy(groups, ByAmountDesc());
    GroupsSum(ts, user, cats, now);
    SortKeepsTotal(groups);
    assert TotalPreorder(ByAmountDesc());
    SortBySorted(groups, ByAmountDesc());
    total := SumAmounts(sorted);
    breakdown := seq(|sorted|, k requires 0 <= k < |sorted| =>
      BreakdownRow(sorted[k].name, sorted[k].amount, Percentage(sorted[k].amount, total)));
    forall k | 0 <= k < |breakdown|
      ensures breakdown[k].amount == NamedDebit(ts, user, cats, now, breakdown[k].name)
    {
      assert sorted[k] in multiset(groups);
      var j :| 0 <= j < |groups| && groups[j] == sorted[k];
      EntryIsWholeSum(groups, j);
    }
    SortedGroupFacts(ts, user, cats, now);
    RowsMirrorGroups(breakdown, sorted);
  }

  /** getDashboardData. */
  method GetDashboardData(userId: nat, ts: seq<Transaction>, budgets: seq<BC.Budget>, cats: seq<string>, now: Date)
    returns (d: Dashboard)
    ensures d.totalCredit == TypeTotal(ts, userId, "credit") && d.totalDebit == TypeTotal(ts, userId, "debit")
    ensures d.netCash == d.totalCredit - d.totalDebit
    ensures |d.recent| == |Recent(ts, userId)|
    ensures forall k :: 0 <= k < |d.recent| ==>
      d.recent[k] == RecentTransaction(Recent(ts, userId)[k], NameOf(Recent(ts, userId)[k], cats))
    ensures |d.budgets| == |MonthBudgets(budgets, userId, now)| <= 5
    ensures var rows := MonthBudgets(budgets, userId, now);
      forall k :: 0 <= k < |d.budgets| ==>
        d.budgets[k] == BudgetCard(rows[k].budgetId, rows[k].budgetLimit, CategoryName(cats, rows[k].categoryId),
                                   CategoryDebit(ts, userId, rows[k].categoryId, now), rows[k].monthStart)
    ensures d.totalBudget == MonthBudgetTotal(budgets, userId, now) && d.totalSpent == MonthDebit(ts, userId, now)
    ensures d.percentage == Progress(d.totalBudget, d.totalSpent)
    ensures d.totalMonthlyExpenses == JoinedDebit(ts, userId, cats, now)
    ensures forall k :: 0 <= k < |d.breakdown| ==>
      d.breakdown[k].amount == NamedDebit(ts, userId, cats, now, d.breakdown[k].name)
      && d.breakdown[k].percentage == Percentage(d.breakdown[k].amount, d.totalMonthlyExpenses)
    ensures forall i, j :: 0 <= i < j < |d.breakdown| ==> d.breakdown[i].amount >= d.breakdown[j].amount
    ensures BreakdownTotal(d.breakdown) == d.totalMonthlyExpenses
    ensures forall i, j :: 0 <= i < j < |d.breakdown| ==> d.breakdown[i].name != d.breakdown[j].name
    ensures forall name :: RowNamed(d.breakdown, name) <==> HasDebitNamed(ts, userId, cats, now, name)
    ensures forall name :: NamedDebit(ts, userId, cats, now, name) != 0.0 ==> RowNamed(d.breakdown, name)
  {
    var totalCredit := TypeTotal(ts, userId, "credit");
    var totalDebit := TypeTotal(ts, userId, "debit");
    var recentRows := Recent(ts, userId);
    var recent := seq(|recentRows|, k requires 0 <= k < |recentRows| => RecentTransaction(recentRows[k], NameOf(recentRows[k], cats)));

    var rows := MonthBudgets(budgets, userId, now);
    var cards := BudgetCards(rows, ts, userId, cats, now);
    if |cards| == 0 {
      var alternative := FallbackBudgets(budgets, userId, now);
      FallbackFindsNothingNew(budgets, userId, now);
      cards := BudgetCards(alternative, ts, userId, cats, now);
    }

    var totalBudget := MonthBudgetTotal(budgets, userId, now);
    var totalSpent := MonthDebit(ts, userId, now);
    var progress := Progress(totalBudget, totalSpent);

    var breakdown, totalMonthlyExpenses := CategoryBreakdown(ts, userId, cats, now);
    d := Dashboard(totalCredit - totalDebit, totalCredit, totalDebit, recent, cards, totalBudget, totalSpent, progress,
                   breakdown, totalMonthlyExpenses);
  }
}
