/**
 * The linear searches the engine performs everywhere: an early-return `for` loop, or
 * `next((x for x in xs if key(x) == k), None)`, both of which yield the FIRST element
 * whose key matches, or nothing.
 */
module Search {
  import opened Base

  /** The index of the first element of `s` whose key is `k`. */
  function FirstIndex<T, K(==)>(s: seq<T>, key: T -> K, k: K): (r: Option<nat>)
    ensures r.None? <==> forall j :: 0 <= j < |s| ==> key(s[j]) != k
    ensures r.Some? ==> r.value < |s| && key(s[r.value]) == k
    ensures r.Some? ==> forall j :: 0 <= j < r.value ==> key(s[j]) != k
    decreases |s|
  {
    if |s| == 0 then None
    else
      match FirstIndex(s[..|s| - 1], key, k)
      case Some(i) => Some(i)
      case None => if key(s[|s| - 1]) == k then Some(|s| - 1) else None
  }

  /** The first element of `s` whose key is `k`. */
  function First<T, K(==)>(s: seq<T>, key: T -> K, k: K): Option<T>
  {
    match FirstIndex(s, key, k)
    case Some(i) => Some(s[i])
    case None => None
  }

  /** The search loop itself. */
  method FindFirst<T, K(==)>(s: seq<T>, key: T -> K, k: K) returns (r: Option<nat>)
    ensures r == FirstIndex(s, key, k)
  {
    var i := 0;
    while i < |s|
      invariant 0 <= i <= |s|
      invariant forall j :: 0 <= j < i ==> key(s[j]) != k
    {
      if key(s[i]) == k {
        return Some(i);
      }
      i := i + 1;
    }
    return None;
  }

  /** The search sees only the keys: lists with the same keys give the same index. */
  lemma {:induction false} FirstIndexSameKeys<T, K>(s: seq<T>, t: seq<T>, key: T -> K, k: K)
    requires |s| == |t| && forall i :: 0 <= i < |s| ==> key(s[i]) == key(t[i])
    ensures FirstIndex(s, key, k) == FirstIndex(t, key, k)
    decreases |s|
  {
    if |s| > 0 {
      FirstIndexSameKeys(s[..|s| - 1], t[..|t| - 1], key, k);
    }
  }
}
