/** Array.prototype.filter by position, as the client uses it to drop one entry. */
module Lists {
  /** `s.filter((_, i) => i !== index)`, scanning positions from `from` on. */
  function WithoutIndexFrom<T>(s: seq<T>, index: int, from: nat): (r: seq<T>)
    decreases |s|
  {
    if s == [] then []
    else (if from == index then [] else [s[0]]) + WithoutIndexFrom(s[1..], index, from + 1)
  }

  /** `s.filter((_, i) => i !== index)` */
  function WithoutIndex<T>(s: seq<T>, index: int): seq<T>
  {
    WithoutIndexFrom(s, index, 0)
  }

  /** Scanning from a position past the index, or from one beyond it, keeps every element. */
  lemma {:induction false} WithoutIndexFromKeeps<T>(s: seq<T>, index: int, from: nat)
    requires !(from <= index < from + |s|)
    ensures WithoutIndexFrom(s, index, from) == s
    decreases |s|
  {
    if s != [] {
      WithoutIndexFromKeeps(s[1..], index, from + 1);
      assert [s[0]] + s[1..] == s;
    }
  }

  /** Scanning over the index drops exactly the element at it. */
  lemma {:induction false} WithoutIndexFromDrops<T>(s: seq<T>, index: int, from: nat)
    requires from <= index < from + |s|
    ensures WithoutIndexFrom(s, index, from) == s[..index - from] + s[index - from + 1..]
    decreases |s|
  {
    if from == index {
      WithoutIndexFromKeeps(s[1..], index, from + 1);
    } else {
      var k := index - from;
      WithoutIndexFromDrops(s[1..], index, from + 1);
      assert s[..k] == [s[0]] + s[1..][..k - 1];
      assert s[k + 1..] == s[1..][k..];
    }
  }

  /** Filtering out a valid position removes exactly that element and keeps the rest in order; any other index changes nothing. */
  lemma WithoutIndexSplice<T>(s: seq<T>, index: int)
    ensures 0 <= index < |s| ==> WithoutIndex(s, index) == s[..index] + s[index + 1..]
    ensures !(0 <= index < |s|) ==> WithoutIndex(s, index) == s
  {
    if 0 <= index < |s| {
      WithoutIndexFromDrops(s, index, 0);
    } else {
      WithoutIndexFromKeeps(s, index, 0);
    }
  }
}
