/**
 * Lookups on a table held as a map from serial ids to rows: the lowest id
 * whose row matches a WHERE condition, and every matching id in id order.
 */
module Tables {
  import opened Wrappers

  /** `SELECT id ... WHERE p LIMIT 1` over the ids below n, taking the lowest. */
  function FirstKey<V>(m: map<nat, V>, p: V -> bool, n: nat): (r: Option<nat>)
    ensures r.Some? ==> r.value < n && r.value in m && p(m[r.value])
    ensures r.Some? ==> forall k: nat :: k < r.value && k in m ==> !p(m[k])
    ensures r.None? ==> forall k: nat :: k < n && k in m ==> !p(m[k])
  {
    if n == 0 then None
    else
      match FirstKey(m, p, n - 1)
      case Some(k) => Some(k)
      case None => if n - 1 in m && p(m[n - 1]) then Some(n - 1) else None
  }

  /** The ids below n whose rows match p, ascending. */
  function KeysBelow<V>(m: map<nat, V>, p: V -> bool, n: nat): (r: seq<nat>)
    ensures forall k :: 0 <= k < |r| ==> r[k] < n && r[k] in m && p(m[r[k]])
    ensures forall id: nat :: id < n && id in m && p(m[id]) ==> id in r
    ensures forall i, j :: 0 <= i < j < |r| ==> r[i] < r[j]
  {
    if n == 0 then []
    else KeysBelow(m, p, n - 1) + (if n - 1 in m && p(m[n - 1]) then [n - 1] else [])
  }
}
