/**
 * The budgets API of the backend: month normalisation, category lookup-or-insert,
 * the (user, category, month) upsert, listing with spent and alert, the
 * validating bulk set and the owner-checked delete. The categories and budgets
 * tables are fields of BudgetDb; the transactions table is a parameter.
 */
module BudgetController {
  import opened Wrappers
  import opened Dates
  import opened Sorting
  import opened TransactionTable

  /** getMonthStart: day 1 of the given date's month, or of today's month when no date is given. */
  function MonthStart(rawDate: Option<Date>, today: Date): (r: Date)
    ensures r.day == 1
    ensures rawDate.Some? ==> r.year == rawDate.value.year && r.month == rawDate.value.month
    ensures rawDate.None? ==> r.year == today.year && r.month == today.month
    ensures ValidDate(if rawDate.Some? then rawDate.value else today) ==> ValidDate(r)
  {
    var d := if rawDate.Some? then rawDate.value else today;
    Date(d.year, d.month, 1)
  }

  /** Normalising an already normalised month changes nothing. */
  lemma MonthStartIdempotent(rawDate: Option<Date>, today: Date, later: Date)
    ensures MonthStart(Some(MonthStart(rawDate, today)), later) == MonthStart(rawDate, today)
  {
  }

  /** A row of budgets. */
  datatype Budget = Budget(budgetId: nat, userId: nat, categoryId: nat, monthStart: Date, budgetLimit: real)

  /**
   * The two tables as a value: category k + 1 is named categories[k];
   * nextBudgetId is the next value of the budget_id sequence.
   */
  datatype Tables = Tables(categories: seq<string>, budgets: seq<Budget>, nextBudgetId: nat)

  predicate SameKey(b: Budget, user: nat, catId: nat, month: Date)
  {
    b.userId == user && b.categoryId == catId && b.monthStart == month
  }

  /**
   * The constraints the schema keeps: category names UNIQUE, one budget per
   * (user_id, category_id, month_start), budget ids unique and below the
   * sequence, every budget referring to an existing category.
   */
  ghost predicate ValidTables(t: Tables)
  {
    (forall i, j :: 0 <= i < j < |t.categories| ==> t.categories[i] != t.categories[j])
    && (forall i, j :: 0 <= i < j < |t.budgets| ==>
          !SameKey(t.budgets[j], t.budgets[i].userId, t.budgets[i].categoryId, t.budgets[i].monthStart))
    && (forall i, j :: 0 <= i < j < |t.budgets| ==> t.budgets[i].budgetId != t.budgets[j].budgetId)
    && (forall k :: 0 <= k < |t.budgets| ==> t.budgets[k].budgetId < t.nextBudgetId)
    && (forall k :: 0 <= k < |t.budgets| ==> 1 <= t.budgets[k].categoryId <= |t.categories|)
  }

  /** SELECT category_id FROM categories WHERE category_name = $1 */
  function FindCategory(cats: seq<string>, name: string): (r: Option<nat>)
    ensures r.Some? ==> 1 <= r.value <= |cats| && cats[r.value - 1] == name
    ensures r.None? <==> name !in cats
  {
    if cats == [] then None
    else if cats[0] == name then Some(1)
    else match FindCategory(cats[1..], name)
      case None => None
      case Some(id) => Some(id + 1)
  }

  /** With unique names, a category's id is its only position. */
  lemma FindCategoryUnique(cats: seq<string>, k: nat)
    requires k < |cats| && forall i, j :: 0 <= i < j < |cats| ==> cats[i] != cats[j]
    ensures FindCategory(cats, cats[k]) == Some(k + 1)
  {
  }

  /** getCategoryId on the tables: the existing id, or the id of a newly inserted category. */
  function WithCategory(t: Tables, name: string): (r: (Tables, nat))
    ensures 1 <= r.1 <= |r.0.categories| && r.0.categories[r.1 - 1] == name
    ensures r.0.budgets == t.budgets && r.0.nextBudgetId == t.nextBudgetId
    ensures name in t.categories ==> r.0 == t
    ensures name !in t.categories ==> r.0.categories == t.categories + [name]
  {
    match FindCategory(t.categories, name)
    case Some(id) => (t, id)
    case None => (t.(categories := t.categories + [name]), |t.categories| + 1)
  }

  /** Looking a name up twice inserts it at most once and returns the same id. */
  lemma CategoryInsertedOnce(t: Tables, name: string)
    requires ValidTables(t)
    ensures var r := WithCategory(t, name);
      ValidTables(r.0) && WithCategory(r.0, name) == r
      && |r.0.categories| <= |t.categories| + 1
  {
    var r := WithCategory(t, name);
    assert name in r.0.categories;
    FindCategoryUnique(r.0.categories, r.1 - 1);
  }

  /** The position of the budget with the key. */
  function FindBudget(budgets: seq<Budget>, user: nat, catId: nat, month: Date): (r: Option<nat>)
    ensures r.Some? ==> r.value < |budgets| && SameKey(budgets[r.value], user, catId, month)
    ensures r.None? ==> forall k :: 0 <= k < |budgets| ==> !SameKey(budgets[k], user, catId, month)
  {
    if budgets == [] then None
    else if SameKey(budgets[0], user, catId, month) then Some(0)
    else match FindBudget(budgets[1..], user, catId, month)
      case None => None
      case Some(k) => Some(k + 1)
  }

  lemma FindBudgetUnique(budgets: seq<Budget>, k: nat)
    requires k < |budgets|
    requires forall i, j :: 0 <= i < j < |budgets| ==>
      !SameKey(budgets[j], budgets[i].userId, budgets[i].categoryId, budgets[i].monthStart)
    ensures FindBudget(budgets, budgets[k].userId, budgets[k].categoryId, budgets[k].monthStart) == Some(k)
  {
  }

  /** The budget_limit stored for a key, if any. */
  function LimitOf(t: Tables, user: nat, catId: nat, month: Date): Option<real>
  {
    match FindBudget(t.budgets, user, catId, month)
    case None => None
    case Some(k) => Some(t.budgets[k].budgetLimit)
  }

  /**
   * upsertCategoryBudget on the tables. The budget_id sequence advances on every
   * INSERT ... ON CONFLICT, also when the conflict turns it into an update.
   */
  function Upsert(t: Tables, user: nat, month: Date, name: string, limit: real): Tables
  {
    var c := WithCategory(t, name);
    var t1 := c.0;
    match FindBudget(t1.budgets, user, c.1, month)
    case Some(k) =>
      t1.(budgets := t1.budgets[k := t1.budgets[k].(budgetLimit := limit)], nextBudgetId := t1.nextBudgetId + 1)
    case None =>
      t1.(budgets := t1.budgets + [Budget(t1.nextBudgetId, user, c.1, month, limit)], nextBudgetId := t1.nextBudgetId + 1)
  }

  /** The row RETURNING * yields for an upsert. */
  function UpsertedRow(t: Tables, user: nat, month: Date, name: string, limit: real): (r: Budget)
    ensures r.budgetLimit == limit && r.monthStart == month && r.userId == user
  {
    var c := WithCategory(t, name);
    match FindBudget(c.0.budgets, user, c.1, month)
    case Some(k) => c.0.budgets[k].(budgetLimit := limit)
    case None => Budget(c.0.nextBudgetId, user, c.1, month, limit)
  }

  /** An upsert keeps the schema's constraints, and adds a row only for a new key. */
  lemma UpsertKeepsValid(t: Tables, user: nat, month: Date, name: string, limit: real)
    requires ValidTables(t)
    ensures var t2 := Upsert(t, user, month, name, limit);
      var id := WithCategory(t, name).1;
      ValidTables(t2)
      && |t2.budgets| == |t.budgets| + (if LimitOf(t, user, id, month).Some? then 0 else 1)
      && |t2.categories| >= |t.categories| && t2.categories[..|t.categories|] == t.categories
  {
    CategoryInsertedOnce(t, name);
    UpsertCategories(t, user, month, name, limit);
    var c := WithCategory(t, name);
    match FindBudget(c.0.budgets, user, c.1, month)
    case Some(k) =>
      SetLimitKeepsValid(c.0, k, limit);
    case None =>
      AppendBudgetKeepsValid(c.0, user, c.1, month, limit);
  }

  /** An upsert's categories are those of the lookup-or-insert: the old ones, and the name at most appended. */
  lemma UpsertCategories(t: Tables, user: nat, month: Date, name: string, limit: real)
    ensures var cs := Upsert(t, user, month, name, limit).categories;
      name in cs && |cs| >= |t.categories| && cs[..|t.categories|] == t.categories
  {
    var c := WithCategory(t, name);
    assert Upsert(t, user, month, name, limit).categories == c.0.categories;
    assert c.0.categories[c.1 - 1] == name;
    if name !in t.categories {
      assert c.0.categories[..|t.categories|] == t.categories;
    }
  }

  /** The UPDATE branch of the upsert keeps the constraints. */
  lemma SetLimitKeepsValid(t: Tables, k: nat, limit: real)
    requires ValidTables(t) && k < |t.budgets|
    ensures ValidTables(t.(budgets := t.budgets[k := t.budgets[k].(budgetLimit := limit)], nextBudgetId := t.nextBudgetId + 1))
  {
  }

  /** The INSERT branch of the upsert keeps the constraints for a key with no row and an existing category. */
  lemma AppendBudgetKeepsValid(t: Tables, user: nat, cat: nat, month: Date, limit: real)
    requires ValidTables(t) && 1 <= cat <= |t.categories|
    requires forall k :: 0 <= k < |t.budgets| ==> !SameKey(t.budgets[k], user, cat, month)
    ensures ValidTables(t.(budgets := t.budgets + [Budget(t.nextBudgetId, user, cat, month, limit)],
                           nextBudgetId := t.nextBudgetId + 1))
  {
  }

  /** After an upsert the key holds the new limit. */
  lemma UpsertLimitAtKey(t: Tables, user: nat, month: Date, name: string, limit: real)
    requires ValidTables(t)
    ensures LimitOf(Upsert(t, user, month, name, limit), user, WithCategory(t, name).1, month) == Some(limit)
  {
    UpsertKeepsValid(t, user, month, name, limit);
    var c := WithCategory(t, name);
    var t2 := Upsert(t, user, month, name, limit);
    var k := match FindBudget(c.0.budgets, user, c.1, month) case Some(k) => k case None => |c.0.budgets|;
    assert SameKey(t2.budgets[k], user, c.1, month) && t2.budgets[k].budgetLimit == limit;
    FindBudgetUnique(t2.budgets, k);
  }

  /** An upsert leaves the limit of every other key as it was. */
  lemma UpsertLimitElsewhere(t: Tables, user: nat, month: Date, name: string, limit: real, u: nat, cat: nat, m: Date)
    requires ValidTables(t)
    requires (u, cat, m) != (user, WithCategory(t, name).1, month)
    ensures LimitOf(Upsert(t, user, month, name, limit), u, cat, m) == LimitOf(t, u, cat, m)
  {
    UpsertKeepsValid(t, user, month, name, limit);
    var t2 := Upsert(t, user, month, name, limit);
    var before := FindBudget(t.budgets, u, cat, m);
    if before.Some? {
      assert t2.budgets[before.value] == t.budgets[before.value];
      FindBudgetUnique(t2.budgets, before.value);
    } else {
    }
  }

  /**
   * An upsert stores the limit under its key, leaves every other key's limit
   * alone, keeps the schema's constraints and adds a row only for a new key.
   */
  lemma UpsertSetsLimit(t: Tables, user: nat, month: Date, name: string, limit: real)
    requires ValidTables(t)
    ensures var t2 := Upsert(t, user, month, name, limit);
      var id := WithCategory(t, name).1;
      ValidTables(t2)
      && LimitOf(t2, user, id, month) == Some(limit)
      && (forall u: nat, c: nat, m: Date :: (u, c, m) != (user, id, month) ==> LimitOf(t2, u, c, m) == LimitOf(t, u, c, m))
      && |t2.budgets| == |t.budgets| + (if LimitOf(t, user, id, month).Some? then 0 else 1)
      && |t2.categories| >= |t.categories| && t2.categories[..|t.categories|] == t.categories
  {
    UpsertKeepsValid(t, user, month, name, limit);
    UpsertLimitAtKey(t, user, month, name, limit);
    forall u: nat, c: nat, m: Date | (u, c, m) != (user, WithCategory(t, name).1, month)
      ensures LimitOf(Upsert(t, user, month, name, limit), u, c, m) == LimitOf(t, u, c, m)
    {
      UpsertLimitElsewhere(t, user, month, name, limit, u, c, m);
    }
  }

  /** One entry of category_limits: `limit` is Number(cl.limit), None when isNaN. */
  datatype CategoryLimit = CategoryLimit(category: string, limit: Option<real>)

  /** The request body's category_limits: an array, or any other JSON value. */
  datatype LimitsBody = LimitsArray(items: seq<CategoryLimit>) | NotAnArray

  /** The entry check of budgetController.ts (line 155): a truthy category and a numeric limit above 0. */
  predicate ValidLimit(cl: CategoryLimit)
  {
    cl.category != "" && cl.limit.Some? && cl.limit.value > 0.0
  }

  /** The position of the first invalid entry, or the length when all are valid. */
  function FirstInvalid(items: seq<CategoryLimit>): (n: nat)
    ensures n <= |items|
    ensures forall k :: 0 <= k < n ==> ValidLimit(items[k])
    ensures n < |items| ==> !ValidLimit(items[n])
  {
    if items == [] || !ValidLimit(items[0]) then 0 else 1 + FirstInvalid(items[1..])
  }

  /** The tables after upserting the entries one after another. */
  function UpsertAll(t: Tables, user: nat, month: Date, items: seq<CategoryLimit>): Tables
    requires forall k :: 0 <= k < |items| ==> ValidLimit(items[k])
  {
    if items == [] then t
    else
      var last := items[|items| - 1];
      assert ValidLimit(last);
      Upsert(UpsertAll(t, user, month, items[..|items| - 1]), user, month, last.category, last.limit.value)
  }

  /** The limit given last for a category among the entries. */
  function LastLimitFor(items: seq<CategoryLimit>, name: string): Option<real>
  {
    if items == [] then None
    else if items[|items| - 1].category == name then items[|items| - 1].limit
    else LastLimitFor(items[..|items| - 1], name)
  }

  /** The id a category has in the tables (0 when it has none). */
  function IdOf(t: Tables, name: string): nat
  {
    match FindCategory(t.categories, name)
    case None => 0
    case Some(id) => id
  }

  /** Upserting a list keeps the constraints, and categories keep their ids. */
  lemma {:induction false} UpsertAllKeepsValid(t: Tables, user: nat, month: Date, items: seq<CategoryLimit>)
    requires ValidTables(t)
    requires forall k :: 0 <= k < |items| ==> ValidLimit(items[k])
    ensures var r := UpsertAll(t, user, month, items);
      ValidTables(r) && |r.categories| >= |t.categories| && r.categories[..|t.categories|] == t.categories
      && forall k :: 0 <= k < |items| ==> items[k].category in r.categories
    decreases |items|
  {
    UpsertAllCategories(t, user, month, items);
    if items != [] {
      var init := items[..|items| - 1];
      var last := items[|items| - 1];
      UpsertAllKeepsValid(t, user, month, init);
      UpsertKeepsValid(UpsertAll(t, user, month, init), user, month, last.category, last.limit.value);
    }
  }

  /** Upserting a list only appends categories, and every entry's category ends up in the table. */
  lemma {:induction false} UpsertAllCategories(t: Tables, user: nat, month: Date, items: seq<CategoryLimit>)
    requires forall k :: 0 <= k < |items| ==> ValidLimit(items[k])
    ensures var cs := UpsertAll(t, user, month, items).categories;
      |cs| >= |t.categories| && cs[..|t.categories|] == t.categories
      && forall k :: 0 <= k < |items| ==> items[k].category in cs
    decreases |items|
  {
    if items != [] {
      var init := items[..|items| - 1];
      var last := items[|items| - 1];
      UpsertAllCategories(t, user, month, init);
      var r0 := UpsertAll(t, user, month, init);
      UpsertCategories(r0, user, month, last.category, last.limit.value);
      var cs := UpsertAll(t, user, month, items).categories;
      PrefixOfPrefix(t.categories, r0.categories, cs);
      KeptEntries(items, init, r0.categories, cs);
    }
  }

  lemma PrefixOfPrefix<T>(a: seq<T>, b: seq<T>, c: seq<T>)
    requires |a| <= |b| <= |c| && b[..|a|] == a && c[..|b|] == b
    ensures c[..|a|] == a
  {
    assert c[..|a|] == c[..|b|][..|a|];
  }

  /** Entries whose categories are in a prefix, and a last one that is in the table, are all in the table. */
  lemma KeptEntries(items: seq<CategoryLimit>, init: seq<CategoryLimit>, prefix: seq<string>, cs: seq<string>)
    requires |items| > 0 && init == items[..|items| - 1]
    requires |prefix| <= |cs| && cs[..|prefix|] == prefix && items[|items| - 1].category in cs
    requires forall k :: 0 <= k < |init| ==> init[k].category in prefix
    ensures forall k :: 0 <= k < |items| ==> items[k].category in cs
  {
    forall k | 0 <= k < |init|
      ensures items[k].category in cs
    {
      assert init[k] == items[k];
      InPrefix(items[k].category, cs, |prefix|);
    }
  }

  lemma InPrefix<T>(x: T, s: seq<T>, n: nat)
    requires n <= |s| && x in s[..n]
    ensures x in s
  {
    var j :| 0 <= j < n && s[..n][j] == x;
    assert s[j] == x;
  }

  /** A category keeps its id when categories are only appended. */
  lemma IdStable(r0: Tables, r: Tables, name: string)
    requires ValidTables(r) && |r.categories| >= |r0.categories| && r.categories[..|r0.categories|] == r0.categories
    requires name in r0.categories
    ensures IdOf(r, name) == IdOf(r0, name) && name in r.categories
  {
    var j := IdOf(r0, name) - 1;
    assert r.categories[j] == r0.categories[j];
    FindCategoryUnique(r.categories, j);
  }

  /** After setting a list of limits, a category in the list holds the limit given last for it. */
  lemma {:induction false} UpsertAllLimitFor(t: Tables, user: nat, month: Date, items: seq<CategoryLimit>, name: string)
    requires ValidTables(t)
    requires forall k :: 0 <= k < |items| ==> ValidLimit(items[k])
    requires exists k :: 0 <= k < |items| && items[k].category == name
    ensures var r := UpsertAll(t, user, month, items);
      LimitOf(r, user, IdOf(r, name), month) == LastLimitFor(items, name)
    decreases |items|
  {
    var init := items[..|items| - 1];
    var last := items[|items| - 1];
    UpsertAllKeepsValid(t, user, month, init);
    var r0 := UpsertAll(t, user, month, init);
    if name == last.category {
      LastNameStep(r0, user, month, last);
    } else {
      var k :| 0 <= k < |items| && items[k].category == name;
      assert k < |init| && init[k] == items[k];
      UpsertAllLimitFor(t, user, month, init, name);
      EarlierNameStep(r0, user, month, last, name);
    }
  }

  /** The entry upserted last sets its own category's limit. */
  lemma LastNameStep(r0: Tables, user: nat, month: Date, last: CategoryLimit)
    requires ValidTables(r0) && ValidLimit(last)
    ensures var r := Upsert(r0, user, month, last.category, last.limit.value);
      LimitOf(r, user, IdOf(r, last.category), month) == last.limit
  {
    UpsertKeepsValid(r0, user, month, last.category, last.limit.value);
    var r := Upsert(r0, user, month, last.category, last.limit.value);
    var id := WithCategory(r0, last.category).1;
    FindCategoryUnique(r.categories, id - 1);
    UpsertLimitAtKey(r0, user, month, last.category, last.limit.value);
  }

  /** Upserting another category leaves an earlier category's id and limit as they were. */
  lemma EarlierNameStep(r0: Tables, user: nat, month: Date, last: CategoryLimit, name: string)
    requires ValidTables(r0) && ValidLimit(last) && name in r0.categories && name != last.category
    ensures var r := Upsert(r0, user, month, last.category, last.limit.value);
      LimitOf(r, user, IdOf(r, name), month) == LimitOf(r0, user, IdOf(r0, name), month)
  {
    UpsertKeepsValid(r0, user, month, last.category, last.limit.value);
    var r := Upsert(r0, user, month, last.category, last.limit.value);
    var id := WithCategory(r0, last.category).1;
    FindCategoryUnique(r.categories, id - 1);
    IdStable(r0, r, name);
    assert IdOf(r, name) != id;
    UpsertLimitElsewhere(r0, user, month, last.category, last.limit.value, user, IdOf(r, name), month);
  }

  /**
   * After setting a list of limits, every category in the list holds the
   * limit given last for it in that month.
   */
  lemma UpsertAllSetsLastLimits(t: Tables, user: nat, month: Date, items: seq<CategoryLimit>)
    requires ValidTables(t)
    requires forall k :: 0 <= k < |items| ==> ValidLimit(items[k])
    ensures var r := UpsertAll(t, user, month, items);
      ValidTables(r)
      && forall k :: 0 <= k < |items| ==>
           LimitOf(r, user, IdOf(r, items[k].category), month) == LastLimitFor(items, items[k].category)
  {
    UpsertAllKeepsValid(t, user, month, items);
    forall k | 0 <= k < |items|
      ensures var r := UpsertAll(t, user, month, items);
        LimitOf(r, user, IdOf(r, items[k].category), month) == LastLimitFor(items, items[k].category)
    {
      UpsertAllLimitFor(t, user, month, items, items[k].category);
    }
  }

  /** Ordering of the budget listing: month_start ascending, then category_name ascending. */
  function CategoryName(cats: seq<string>, id: nat): string
  {
    if 1 <= id <= |cats| then cats[id - 1] else ""
  }

  function BudgetOrder(cats: seq<string>): (Budget, Budget) -> bool
  {
    (a: Budget, b: Budget) =>
      Before(a.monthStart, b.monthStart)
      || (a.monthStart == b.monthStart && StrLe(CategoryName(cats, a.categoryId), CategoryName(cats, b.categoryId)))
  }

  lemma BudgetOrderIsTotalPreorder(cats: seq<string>)
    ensures TotalPreorder(BudgetOrder(cats))
  {
    var le := BudgetOrder(cats);
    forall a: Budget, b: Budget
      ensures le(a, b) || le(b, a)
    {
      StrLeTotal(CategoryName(cats, a.categoryId), CategoryName(cats, b.categoryId));
    }
    forall a: Budget, b: Budget, c: Budget | le(a, b) && le(b, c)
      ensures le(a, c)
    {
      if a.monthStart == b.monthStart == c.monthStart {
        StrLeTransitive(CategoryName(cats, a.categoryId), CategoryName(cats, b.categoryId), CategoryName(cats, c.categoryId));
      }
    }
  }

  /** The budget rows of getBudget's query: the user's budgets in listing order. */
  function BudgetQuery(t: Tables, user: nat): seq<Budget>
  {
    SortBy(Filter(t.budgets, (b: Budget) => b.userId == user), BudgetOrder(t.categories))
  }

  /** The listing holds exactly the user's budgets, ordered by month and then category name. */
  lemma BudgetQueryOrdered(t: Tables, user: nat)
    ensures var rows := BudgetQuery(t, user);
      SortedBy(rows, BudgetOrder(t.categories))
      && multiset(rows) == multiset(Filter(t.budgets, (b: Budget) => b.userId == user))
      && forall k :: 0 <= k < |rows| ==> rows[k].userId == user
  {
    BudgetOrderIsTotalPreorder(t.categories);
    var mine := Filter(t.budgets, (b: Budget) => b.userId == user);
    SortBySorted(mine, BudgetOrder(t.categories));
    SameRowsSameUser(BudgetQuery(t, user), mine, user);
  }

  /** A reordering of one user's rows holds only that user's rows. */
  lemma SameRowsSameUser(rows: seq<Budget>, source: seq<Budget>, user: nat)
    requires multiset(rows) == multiset(source) && forall k :: 0 <= k < |source| ==> source[k].userId == user
    ensures forall k :: 0 <= k < |rows| ==> rows[k].userId == user
  {
    forall k | 0 <= k < |rows|
      ensures rows[k].userId == user
    {
      assert rows[k] in multiset(source);
    }
  }

  /** getCategorySpending: the sum of every transaction of the user in the category and month, of any type. */
  function Spent(txns: seq<Transaction>, user: nat, catId: nat, month: Date): real
  {
    if txns == [] then 0.0
    else
      var x := txns[|txns| - 1];
      Spent(txns[..|txns| - 1], user, catId, month)
      + (if x.userId == user && x.categoryId == Some(catId) && x.date.year == month.year && x.date.month == month.month
         then x.amount else 0.0)
  }

  /** One entry of getBudget's reply. */
  datatype BudgetView = BudgetView(budgetId: nat, categoryId: nat, categoryName: string, budgetLimit: real,
                                   monthStart: Date, spent: real, alert: bool)

  /**
   * A reply entry for a budget row: the row's id, limit and month, its
   * category's name, the spending of its category and month, and the alert
   * exactly when the spending exceeds the limit.
   */
  predicate ViewOf(v: BudgetView, row: Budget, cats: seq<string>, txns: seq<Transaction>, user: nat)
  {
    v.budgetId == row.budgetId && v.categoryId == row.categoryId && v.budgetLimit == row.budgetLimit
    && v.monthStart == row.monthStart && v.categoryName == CategoryName(cats, row.categoryId)
    && v.spent == Spent(txns, user, row.categoryId, row.monthStart)
    && (v.alert <==> v.spent > v.budgetLimit)
  }

  datatype Reply = Reply(status: int, body: Body)
  datatype Body = Error(error: string) | Message(message: string)
                | CategoryBudgets(rows: seq<Budget>) | Budgets(views: seq<BudgetView>)

  /** The budgets and categories tables. */
  class BudgetDb {
    var categories: seq<string>
    var budgets: seq<Budget>
    var nextBudgetId: nat

    function State(): Tables
      reads this
    {
      Tables(categories, budgets, nextBudgetId)
    }

    ghost predicate Valid()
      reads this
    {
      ValidTables(State())
    }

    constructor ()
      ensures Valid() && categories == [] && budgets == []
    {
      categories, budgets, nextBudgetId := [], [], 1;
    }

    /** getCategoryId. */
    method GetCategoryId(name: string) returns (id: nat)
      requires Valid()
      modifies this
      ensures Valid()
      ensures (State(), id) == WithCategory(old(State()), name)
    {
      CategoryInsertedOnce(State(), name);
      var found := FindCategory(categories, name);
      if found.Some? {
        return found.value;
      }
      categories := categories + [name];
      id := |categories|;
    }

    /** upsertCategoryBudget. */
    method UpsertCategoryBudget(userId: nat, monthStart: Date, category: string, limit: real) returns (row: Budget)
      requires Valid()
      modifies this
      ensures Valid()
      ensures State() == Upsert(old(State()), userId, monthStart, category, limit)
      ensures row == UpsertedRow(old(State()), userId, monthStart, category, limit)
    {
      UpsertSetsLimit(State(), userId, monthStart, category, limit);
      var categoryId := GetCategoryId(category);
      var found := FindBudget(budgets, userId, categoryId, monthStart);
      if found.Some? {
        row := budgets[found.value].(budgetLimit := limit);
        budgets := budgets[found.value := row];
      } else {
        row := Budget(nextBudgetId, userId, categoryId, monthStart, limit);
        budgets := budgets + [row];
      }
      nextBudgetId := nextBudgetId + 1;
    }

    /**
     * setBudget. A body that is not an array gets the 400 and nothing is written
     * (the handler goes on after sending it, but iterating the value fails before
     * any upsert). Entries are upserted in order; the first invalid one ends the
     * request with 400, and the entries before it stay written.
     */
    method SetBudget(userId: nat, monthStart: Option<Date>, today: Date, body: LimitsBody) returns (reply: Reply)
      requires Valid()
      modifies this
      ensures Valid()
      ensures body.NotAnArray? ==> reply == Reply(400, Error("category_limits must be an array.")) && State() == old(State())
      ensures body.LimitsArray? ==>
        State() == UpsertAll(old(State()), userId, MonthStart(monthStart, today), body.items[..FirstInvalid(body.items)])
      ensures body.LimitsArray? ==> (reply.status == 200 <==> FirstInvalid(body.items) == |body.items|)
      ensures body.LimitsArray? && FirstInvalid(body.items) < |body.items| ==>
        reply == Reply(400, Error("Each category limit must include a valid category and a limit > 0."))
      ensures body.LimitsArray? && FirstInvalid(body.items) == |body.items| ==>
        reply.body.CategoryBudgets? && |reply.body.rows| == |body.items|
      ensures body.LimitsArray? && FirstInvalid(body.items) == |body.items| ==>
        forall k :: 0 <= k < |body.items| ==>
          body.items[k].limit == Some(reply.body.rows[k].budgetLimit) && reply.body.rows[k].monthStart == MonthStart(monthStart, today)
    {
      if body.NotAnArray? {
        return Reply(400, Error("category_limits must be an array."));
      }
      var rows;
      reply, rows := SetLimits(userId, MonthStart(monthStart, today), body.items);
    }

    /**
     * The loop of setBudget over the entries: each valid entry is upserted in
     * order and its row collected; the first invalid one ends with 400.
     */
    method SetLimits(userId: nat, month: Date, items: seq<CategoryLimit>) returns (reply: Reply, rows: seq<Budget>)
      requires Valid()
      modifies this
      ensures Valid()
      ensures State() == UpsertAll(old(State()), userId, month, items[..FirstInvalid(items)])
      ensures reply.status == 200 <==> FirstInvalid(items) == |items|
      ensures FirstInvalid(items) < |items| ==>
        reply == Reply(400, Error("Each category limit must include a valid category and a limit > 0."))
      ensures FirstInvalid(items) == |items| ==> reply == Reply(200, CategoryBudgets(rows))
      ensures |rows| == FirstInvalid(items)
      ensures RowsFor(rows, items, month)
    {
      rows := [];
      var i := 0;
      while i < |items|
        invariant 0 <= i <= |items|
        invariant forall k :: 0 <= k < i ==> ValidLimit(items[k])
        invariant Valid()
        invariant State() == UpsertAll(old(State()), userId, month, items[..i])
        invariant |rows| == i
        invariant RowsFor(rows, items, month)
      {
        var cl := items[i];
        if !ValidLimit(cl) {
          FirstInvalidAt(items, i);
          return Reply(400, Error("Each category limit must include a valid category and a limit > 0.")), rows;
        }
        UpsertAllStep(old(State()), userId, month, items, i);
        var row := UpsertCategoryBudget(userId, month, cl.category, cl.limit.value);
        RowsForAppend(rows, items, month, row);
        rows := rows + [row];
        i := i + 1;
      }
      FirstInvalidAt(items, |items|);
      reply := Reply(200, CategoryBudgets(rows));
    }

    /** getBudget: the user's budgets in listing order, each with its spending and alert flag. */
    method GetBudget(userId: nat, transactions: seq<Transaction>) returns (views: seq<BudgetView>)
      ensures var rows := BudgetQuery(State(), userId);
        |views| == |rows|
        && forall k :: 0 <= k < |rows| ==> ViewOf(views[k], rows[k], categories, transactions, userId)
    {
      var rows := BudgetQuery(State(), userId);
      views := [];
      var i := 0;
      while i < |rows|
        invariant 0 <= i <= |rows|
        invariant |views| == i
        invariant forall k :: 0 <= k < i ==> ViewOf(views[k], rows[k], categories, transactions, userId)
      {
        var row := rows[i];
        var spent := Spent(transactions, userId, row.categoryId, row.monthStart);
        var alert := spent > row.budgetLimit;
        views := views + [BudgetView(row.budgetId, row.categoryId, CategoryName(categories, row.categoryId),
                                     row.budgetLimit, row.monthStart, spent, alert)];
        i := i + 1;
      }
    }

    /** deleteBudget: `rawId` is parseInt of the path parameter, None when NaN. */
    method DeleteBudget(userId: nat, rawId: Option<int>) returns (reply: Reply)
      requires Valid()
      modifies this
      ensures Valid()
      ensures rawId.None? ==> reply == Reply(400, Error("Invalid budget ID.")) && State() == old(State())
      ensures rawId.Some? ==>
        budgets == Filter(old(budgets), (b: Budget) => !(b.budgetId == rawId.value && b.userId == userId))
        && categories == old(categories) && nextBudgetId == old(nextBudgetId)
        && (reply.status == 404 <==> forall k :: 0 <= k < |old(budgets)| ==> !(old(budgets)[k].budgetId == rawId.value && old(budgets)[k].userId == userId))
        && (reply.status == 404 ==> budgets == old(budgets) && reply.body == Error("Budget not found or not authorized."))
        && (reply.status != 404 ==> |budgets| == |old(budgets)| - 1 && reply == Reply(200, Message("Budget deleted successfully.")))
    {
      if rawId.None? {
        return Reply(400, Error("Invalid budget ID."));
      }
      var id := rawId.value;
      var matches := (b: Budget) => !(b.budgetId == id && b.userId == userId);
      var kept := Filter(budgets, matches);
      DeleteKeepsValid(State(), id, userId);
      if |kept| == |budgets| {
        FilterAllKept(budgets, matches);
        budgets := kept;
        return Reply(404, Error("Budget not found or not authorized."));
      }
      budgets := kept;
      reply := Reply(200, Message("Budget deleted successfully."));
    }
  }

  /** Upserting one more entry extends UpsertAll by one Upsert. */
  lemma UpsertAllStep(t: Tables, user: nat, month: Date, items: seq<CategoryLimit>, i: nat)
    requires i < |items| && forall k :: 0 <= k <= i ==> ValidLimit(items[k])
    ensures UpsertAll(t, user, month, items[..i + 1])
         == Upsert(UpsertAll(t, user, month, items[..i]), user, month, items[i].category, items[i].limit.value)
  {
    assert items[..i + 1][..i] == items[..i];
  }

  /** Each collected row carries the limit of its entry and the month. */
  predicate RowsFor(rows: seq<Budget>, items: seq<CategoryLimit>, month: Date)
  {
    |rows| <= |items|
    && forall k :: 0 <= k < |rows| ==> items[k].limit == Some(rows[k].budgetLimit) && rows[k].monthStart == month
  }

  lemma RowsForAppend(rows: seq<Budget>, items: seq<CategoryLimit>, month: Date, row: Budget)
    requires RowsFor(rows, items, month) && |rows| < |items|
    requires items[|rows|].limit == Some(row.budgetLimit) && row.monthStart == month
    ensures RowsFor(rows + [row], items, month)
  {
  }

  lemma FirstInvalidAt(items: seq<CategoryLimit>, i: nat)
    requires i <= |items| && forall k :: 0 <= k < i ==> ValidLimit(items[k])
    requires i < |items| ==> !ValidLimit(items[i])
    ensures FirstInvalid(items) == i
  {
  }

  /** A filter that removes nothing returns its input. */
  lemma FilterAllKept<T>(s: seq<T>, p: T -> bool)
    requires |Filter(s, p)| == |s|
    ensures Filter(s, p) == s
    ensures forall k :: 0 <= k < |s| ==> p(s[k])
  {
    if s != [] {
      FilterAllKept(s[1..], p);
    }
  }

  /** Deleting rows keeps the constraints, and removes at most one row since budget ids are unique. */
  lemma DeleteKeepsValid(t: Tables, id: int, user: nat)
    requires ValidTables(t)
    ensures var kept := Filter(t.budgets, (b: Budget) => !(b.budgetId == id && b.userId == user));
      ValidTables(t.(budgets := kept))
      && (|kept| == |t.budgets| <==> forall k :: 0 <= k < |t.budgets| ==> !(t.budgets[k].budgetId == id && t.budgets[k].userId == user))
      && (|kept| != |t.budgets| ==> |kept| == |t.budgets| - 1)
  {
    var p := (b: Budget) => !(b.budgetId == id && b.userId == user);
    var kept := Filter(t.budgets, p);
    FilterKeepsPairwise(t.budgets, p, (a: Budget, b: Budget) => !SameKey(b, a.userId, a.categoryId, a.monthStart));
    FilterKeepsPairwise(t.budgets, p, (a: Budget, b: Budget) => a.budgetId != b.budgetId);
    FilterKeepsAll(t.budgets, p);
    FilterDropsAtMostOne(t.budgets, p);
  }
}
