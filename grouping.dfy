/**
 * Grouping a list by a string key into a plain object of arrays, as
 * `xs.reduce((groups, x) => { (groups[key(x)] ||= []).push(x); return groups }, {})`
 * does. The object is a list of (key, members) entries in insertion order,
 * which is the order Object.entries lists keys that are not array indices.
 */
module Grouping {
  import opened Wrappers

  datatype Group<T> = Group(key: string, members: seq<T>)

  /** The position of the entry for k. */
  function KeyIndex<T>(gs: seq<Group<T>>, k: string): (r: Option<nat>)
    ensures r.Some? ==> r.value < |gs| && gs[r.value].key == k
    ensures r.None? ==> forall i :: 0 <= i < |gs| ==> gs[i].key != k
  {
    if gs == [] then None
    else if gs[|gs| - 1].key == k then Some(|gs| - 1)
    else KeyIndex(gs[..|gs| - 1], k)
  }

  /** One step of the reduce: push x onto its key's array, creating the array first when missing. */
  function AddTo<T>(gs: seq<Group<T>>, k: string, x: T): seq<Group<T>>
  {
    match KeyIndex(gs, k)
    case Some(i) => gs[i := Group(k, gs[i].members + [x])]
    case None => gs + [Group(k, [x])]
  }

  /** The object after the reduce has seen every element. */
  function GroupAll<T>(xs: seq<T>, key: T -> string): seq<Group<T>>
  {
    if xs == [] then [] else AddTo(GroupAll(xs[..|xs| - 1], key), key(xs[|xs| - 1]), xs[|xs| - 1])
  }

  /** The elements with key k, in input order. */
  function WithKey<T>(xs: seq<T>, key: T -> string, k: string): (r: seq<T>)
    ensures forall y :: y in r ==> y in xs && key(y) == k
  {
    if xs == [] then []
    else WithKey(xs[..|xs| - 1], key, k) + (if key(xs[|xs| - 1]) == k then [xs[|xs| - 1]] else [])
  }

  lemma {:induction false} WithKeyNone<T>(xs: seq<T>, key: T -> string, k: string)
    requires forall j :: 0 <= j < |xs| ==> key(xs[j]) != k
    ensures WithKey(xs, key, k) == []
    decreases |xs|
  {
    if xs != [] {
      WithKeyNone(xs[..|xs| - 1], key, k);
    }
  }

  /** What the object holds after a prefix of the list. */
  ghost predicate GroupsOf<T>(xs: seq<T>, key: T -> string, gs: seq<Group<T>>)
  {
    && (forall i, j :: 0 <= i < j < |gs| ==> gs[i].key != gs[j].key)
    && (forall i :: 0 <= i < |gs| ==> gs[i].members == WithKey(xs, key, gs[i].key) && gs[i].members != [])
    && (forall j :: 0 <= j < |xs| ==> KeyIndex(gs, key(xs[j])).Some?)
  }

  /** Pushing onto an existing array keeps the grouping of the longer list. */
  lemma AddToExisting<T>(prefix: seq<T>, key: T -> string, gs: seq<Group<T>>, x: T, p: nat)
    requires GroupsOf(prefix, key, gs) && p < |gs| && gs[p].key == key(x)
    ensures GroupsOf(prefix + [x], key, gs[p := Group(key(x), gs[p].members + [x])])
  {
    ExistingKeyMembers(prefix, key, gs, x, p);
    ExistingKeyIndexed(prefix, key, gs, x, p);
  }

  /** Only the group of x's key gains x, at its end. */
  lemma ExistingKeyMembers<T>(prefix: seq<T>, key: T -> string, gs: seq<Group<T>>, x: T, p: nat)
    requires GroupsOf(prefix, key, gs) && p < |gs| && gs[p].key == key(x)
    ensures var xs, gs' := prefix + [x], gs[p := Group(key(x), gs[p].members + [x])];
      forall i :: 0 <= i < |gs'| ==> gs'[i].members == WithKey(xs, key, gs'[i].key) && gs'[i].members != []
  {
    var xs, gs' := prefix + [x], gs[p := Group(key(x), gs[p].members + [x])];
    forall i | 0 <= i < |gs'|
      ensures gs'[i].members == WithKey(xs, key, gs'[i].key) && gs'[i].members != []
    {
      WithKeyAppend(prefix, key, x, gs'[i].key);
    }
  }

  /** Growing x's group leaves every element of the longer list with an entry. */
  lemma ExistingKeyIndexed<T>(prefix: seq<T>, key: T -> string, gs: seq<Group<T>>, x: T, p: nat)
    requires forall j :: 0 <= j < |prefix| ==> KeyIndex(gs, key(prefix[j])).Some?
    requires p < |gs| && gs[p].key == key(x)
    ensures var xs, gs' := prefix + [x], gs[p := Group(key(x), gs[p].members + [x])];
      forall j :: 0 <= j < |xs| ==> KeyIndex(gs', key(xs[j])).Some?
  {
    var xs, gs' := prefix + [x], gs[p := Group(key(x), gs[p].members + [x])];
    forall j | 0 <= j < |xs|
      ensures KeyIndex(gs', key(xs[j])).Some?
    {
      if j < |prefix| {
        assert xs[j] == prefix[j];
        var q := KeyIndex(gs, key(xs[j])).value;
        assert gs'[q].key == key(xs[j]);
      } else {
        assert gs'[p].key == key(x);
      }
    }
  }

  /** Creating the array for a new key keeps the grouping of the longer list. */
  lemma AddToNew<T>(prefix: seq<T>, key: T -> string, gs: seq<Group<T>>, x: T)
    requires GroupsOf(prefix, key, gs) && KeyIndex(gs, key(x)).None?
    ensures GroupsOf(prefix + [x], key, gs + [Group(key(x), [x])])
  {
    NewKeyDistinct(gs, key(x), [x]);
    NewKeyMembers(prefix, key, gs, x);
    NewKeyIndexed(prefix, key, gs, x);
  }

  /** A group for a key with no entry keeps the keys distinct. */
  lemma NewKeyDistinct<T>(gs: seq<Group<T>>, k: string, members: seq<T>)
    requires forall i, j :: 0 <= i < j < |gs| ==> gs[i].key != gs[j].key
    requires KeyIndex(gs, k).None?
    ensures var gs' := gs + [Group(k, members)];
      forall i, j :: 0 <= i < j < |gs'| ==> gs'[i].key != gs'[j].key
  {
  }

  /** The new group holds x alone, and every other group is unchanged by x. */
  lemma NewKeyMembers<T>(prefix: seq<T>, key: T -> string, gs: seq<Group<T>>, x: T)
    requires GroupsOf(prefix, key, gs) && KeyIndex(gs, key(x)).None?
    ensures var xs, gs' := prefix + [x], gs + [Group(key(x), [x])];
      forall i :: 0 <= i < |gs'| ==> gs'[i].members == WithKey(xs, key, gs'[i].key) && gs'[i].members != []
  {
    var xs, k, gs' := prefix + [x], key(x), gs + [Group(key(x), [x])];
    NewKeyAbsent(prefix, key, gs, k);
    WithKeyNone(prefix, key, k);
    forall i | 0 <= i < |gs'|
      ensures gs'[i].members == WithKey(xs, key, gs'[i].key) && gs'[i].members != []
    {
      WithKeyAppend(prefix, key, x, gs'[i].key);
      if i < |gs| {
        assert gs'[i] == gs[i];
      }
    }
  }

  /** Appending x's group leaves every element of the longer list with an entry. */
  lemma NewKeyIndexed<T>(prefix: seq<T>, key: T -> string, gs: seq<Group<T>>, x: T)
    requires forall j :: 0 <= j < |prefix| ==> KeyIndex(gs, key(prefix[j])).Some?
    ensures forall j :: 0 <= j < |prefix + [x]| ==> KeyIndex(gs + [Group(key(x), [x])], key((prefix + [x])[j])).Some?
  {
    var xs, gs' := prefix + [x], gs + [Group(key(x), [x])];
    forall j | 0 <= j < |xs|
      ensures KeyIndex(gs', key(xs[j])).Some?
    {
      if j < |prefix| {
        assert xs[j] == prefix[j];
        var q := KeyIndex(gs, key(xs[j])).value;
        assert gs'[q].key == key(xs[j]);
      } else {
        assert gs'[|gs|].key == key(x);
      }
    }
  }

  /** The elements with key k of a longer list: those of the prefix, then x when its key is k. */
  lemma WithKeyAppend<T>(prefix: seq<T>, key: T -> string, x: T, k: string)
    ensures WithKey(prefix + [x], key, k) == WithKey(prefix, key, k) + (if key(x) == k then [x] else [])
  {
    var xs := prefix + [x];
    assert xs[..|xs| - 1] == prefix;
  }

  /** A key with no entry belongs to no element seen so far. */
  lemma NewKeyAbsent<T>(prefix: seq<T>, key: T -> string, gs: seq<Group<T>>, k: string)
    requires GroupsOf(prefix, key, gs) && KeyIndex(gs, k).None?
    ensures forall j :: 0 <= j < |prefix| ==> key(prefix[j]) != k
  {
    forall j | 0 <= j < |prefix|
      ensures key(prefix[j]) != k
    {
      var q := KeyIndex(gs, key(prefix[j])).value;
    }
  }

  lemma {:induction false} GroupAllGroups<T>(xs: seq<T>, key: T -> string)
    ensures GroupsOf(xs, key, GroupAll(xs, key))
    decreases |xs|
  {
    if xs != [] {
      var prefix, x := xs[..|xs| - 1], xs[|xs| - 1];
      assert xs == prefix + [x];
      GroupAllGroups(prefix, key);
      var gs := GroupAll(prefix, key);
      match KeyIndex(gs, key(x))
      case Some(p) =>
        AddToExisting(prefix, key, gs, x, p);
      case None =>
        AddToNew(prefix, key, gs, x);
    }
  }

  /**
   * The grouping partitions the list: keys are distinct, each element's key
   * has an entry, and each entry holds exactly the elements with its key,
   * in input order.
   */
  lemma GroupAllPartitions<T>(xs: seq<T>, key: T -> string)
    ensures var gs := GroupAll(xs, key);
      && (forall i, j :: 0 <= i < j < |gs| ==> gs[i].key != gs[j].key)
      && (forall i :: 0 <= i < |gs| ==> gs[i].members == WithKey(xs, key, gs[i].key) && gs[i].members != [])
      && (forall x :: x in xs ==> exists i :: 0 <= i < |gs| && gs[i].key == key(x) && x in gs[i].members)
  {
    GroupAllGroups(xs, key);
    var gs := GroupAll(xs, key);
    forall x | x in xs
      ensures exists i :: 0 <= i < |gs| && gs[i].key == key(x) && x in gs[i].members
    {
      var j :| 0 <= j < |xs| && xs[j] == x;
      var i := KeyIndex(gs, key(xs[j])).value;
      WithKeyHas(xs, key, j);
    }
  }

  lemma {:induction false} WithKeyHas<T>(xs: seq<T>, key: T -> string, j: nat)
    requires j < |xs|
    ensures xs[j] in WithKey(xs, key, key(xs[j]))
    decreases |xs|
  {
    if j < |xs| - 1 {
      WithKeyHas(xs[..|xs| - 1], key, j);
    }
  }

  /** The reduce over one more element is one more AddTo step. */
  lemma GroupAllStep<T>(xs: seq<T>, key: T -> string, n: nat)
    requires n < |xs|
    ensures GroupAll(xs[..n + 1], key) == AddTo(GroupAll(xs[..n], key), key(xs[n]), xs[n])
  {
    assert xs[..n + 1][..n] == xs[..n];
  }

  /** Creating an empty array for a new key and pushing x onto it is the AddTo step. */
  lemma PushOntoCreated<T>(gs: seq<Group<T>>, k: string, x: T)
    requires KeyIndex(gs, k).None?
    ensures (gs + [Group(k, [])])[|gs| := Group(k, [] + [x])] == AddTo(gs, k, x)
  {
    assert [] + [x] == [x];
  }

  /** The reduce over the list, pushing each element onto its key's array. */
  method GroupBy<T>(xs: seq<T>, key: T -> string) returns (gs: seq<Group<T>>)
    ensures gs == GroupAll(xs, key)
    ensures forall i, j :: 0 <= i < j < |gs| ==> gs[i].key != gs[j].key
    ensures forall i :: 0 <= i < |gs| ==> gs[i].members == WithKey(xs, key, gs[i].key) && gs[i].members != []
    ensures forall x :: x in xs ==> exists i :: 0 <= i < |gs| && gs[i].key == key(x) && x in gs[i].members
  {
    gs := [];
    var n := 0;
    while n < |xs|
      invariant 0 <= n <= |xs|
      invariant gs == GroupAll(xs[..n], key)
    {
      var k := key(xs[n]);
      var index := KeyIndex(gs, k);
      GroupAllStep(xs, key, n);
      if index.None? {
        PushOntoCreated(gs, k, xs[n]);
        gs := gs + [Group(k, [])];
        index := Some(|gs| - 1);
      }
      var i := index.value;
      gs := gs[i := Group(k, gs[i].members + [xs[n]])];
      n := n + 1;
    }
    assert xs[..n] == xs;
    GroupAllPartitions(xs, key);
  }
}
