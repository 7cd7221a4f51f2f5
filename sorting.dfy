/**
 * Python's `list.sort(key=...)` and `sorted(...)`: a stable sort by a real-valued key.
 * `SortBy` is the reference definition (insertion of each element after every element
 * whose key is not greater, which keeps equal keys in their original order), and
 * `SortInPlace` sorts an array to exactly that sequence.
 */
module Sorting {

  function Insert<T>(s: seq<T>, x: T, key: T -> real): seq<T>
  {
    if |s| == 0 || key(s[|s| - 1]) <= key(x) then s + [x]
    else Insert(s[..|s| - 1], x, key) + [s[|s| - 1]]
  }

  function SortBy<T>(s: seq<T>, key: T -> real): seq<T>
  {
    if |s| == 0 then [] else Insert(SortBy(s[..|s| - 1], key), s[|s| - 1], key)
  }

  ghost predicate SortedBy<T>(s: seq<T>, key: T -> real)
  {
    forall i, j :: 0 <= i < j < |s| ==> key(s[i]) <= key(s[j])
  }

  /**
   * How many elements of `s` have a key below `v` (`strict`) or at most `v` (not `strict`).
   */
  function CountUpTo<T>(s: seq<T>, key: T -> real, v: real, strict: bool): nat
  {
    if |s| == 0 then 0
    else
      var k := key(s[|s| - 1]);
      CountUpTo(s[..|s| - 1], key, v, strict) + (if k < v || (!strict && k == v) then 1 else 0)
  }

  lemma {:induction false} CountAppend<T>(s: seq<T>, t: seq<T>, key: T -> real, v: real, strict: bool)
    ensures CountUpTo(s + t, key, v, strict) == CountUpTo(s, key, v, strict) + CountUpTo(t, key, v, strict)
    decreases |t|
  {
    if |t| == 0 {
      assert s + t == s;
    } else {
      assert (s + t)[..|s + t| - 1] == s + t[..|t| - 1];
      CountAppend(s, t[..|t| - 1], key, v, strict);
    }
  }

  lemma {:induction false} InsertLength<T>(s: seq<T>, x: T, key: T -> real)
    ensures |Insert(s, x, key)| == |s| + 1
    decreases |s|
  {
    if !(|s| == 0 || key(s[|s| - 1]) <= key(x)) {
      InsertLength(s[..|s| - 1], x, key);
    }
  }

  lemma {:induction false} SortByIsSorted<T>(s: seq<T>, key: T -> real)
    ensures SortedBy(SortBy(s, key), key)
    decreases |s|
  {
    if |s| > 0 {
      SortByIsSorted(s[..|s| - 1], key);
      InsertSorted(SortBy(s[..|s| - 1], key), s[|s| - 1], key);
    }
  }

  lemma {:induction false} InsertBounded<T>(s: seq<T>, x: T, key: T -> real, b: real)
    requires forall i :: 0 <= i < |s| ==> key(s[i]) <= b
    requires key(x) <= b
    ensures |Insert(s, x, key)| == |s| + 1
    ensures forall i :: 0 <= i < |Insert(s, x, key)| ==> key(Insert(s, x, key)[i]) <= b
    decreases |s|
  {
    if !(|s| == 0 || key(s[|s| - 1]) <= key(x)) {
      InsertBounded(s[..|s| - 1], x, key, b);
    }
  }

  lemma {:induction false} InsertSorted<T>(s: seq<T>, x: T, key: T -> real)
    requires SortedBy(s, key)
    ensures |Insert(s, x, key)| == |s| + 1
    ensures SortedBy(Insert(s, x, key), key)
    decreases |s|
  {
    if !(|s| == 0 || key(s[|s| - 1]) <= key(x)) {
      var init, y := s[..|s| - 1], s[|s| - 1];
      InsertSorted(init, x, key);
      InsertBounded(init, x, key, key(y));
    }
  }

  lemma {:induction false} InsertPermutes<T>(s: seq<T>, x: T, key: T -> real)
    ensures multiset(Insert(s, x, key)) == multiset(s) + multiset{x}
    decreases |s|
  {
    if !(|s| == 0 || key(s[|s| - 1]) <= key(x)) {
      var init, y := s[..|s| - 1], s[|s| - 1];
      assert s == init + [y];
      InsertPermutes(init, x, key);
    }
  }

  lemma {:induction false} InsertCount<T>(s: seq<T>, x: T, key: T -> real, v: real, strict: bool)
    ensures CountUpTo(Insert(s, x, key), key, v, strict) == CountUpTo(s + [x], key, v, strict)
    decreases |s|
  {
    if !(|s| == 0 || key(s[|s| - 1]) <= key(x)) {
      var init, y := s[..|s| - 1], s[|s| - 1];
      assert s == init + [y];
      InsertCount(init, x, key, v, strict);
      CountAppend(Insert(init, x, key), [y], key, v, strict);
      CountAppend(init + [x], [y], key, v, strict);
      CountAppend(init, [x], key, v, strict);
      CountAppend(init, [y], key, v, strict);
      CountAppend(s, [x], key, v, strict);
    }
  }

  lemma {:induction false} SortByLength<T>(s: seq<T>, key: T -> real)
    ensures |SortBy(s, key)| == |s|
    decreases |s|
  {
    if |s| > 0 {
      SortByLength(s[..|s| - 1], key);
      InsertLength(SortBy(s[..|s| - 1], key), s[|s| - 1], key);
    }
  }

  /** The elements of `s` whose key is `v`, in order. */
  function WithKey<T>(s: seq<T>, key: T -> real, v: real): seq<T>
    decreases |s|
  {
    if |s| == 0 then []
    else WithKey(s[..|s| - 1], key, v) + (if key(s[|s| - 1]) == v then [s[|s| - 1]] else [])
  }

  lemma {:induction false} InsertStable<T>(s: seq<T>, x: T, key: T -> real, v: real)
    ensures WithKey(Insert(s, x, key), key, v) == WithKey(s + [x], key, v)
    decreases |s|
  {
    var sx := s + [x];
    assert sx[..|sx| - 1] == s;
    if !(|s| == 0 || key(s[|s| - 1]) <= key(x)) {
      var init, y := s[..|s| - 1], s[|s| - 1];
      InsertStable(init, x, key, v);
      var ix := init + [x];
      assert ix[..|ix| - 1] == init;
      var t := Insert(init, x, key) + [y];
      assert t[..|t| - 1] == Insert(init, x, key);
    }
  }

  /** `SortBy` is stable: the elements with any one key keep their input order. */
  lemma {:induction false} SortByStable<T>(s: seq<T>, key: T -> real, v: real)
    ensures WithKey(SortBy(s, key), key, v) == WithKey(s, key, v)
    decreases |s|
  {
    if |s| > 0 {
      var init, x := s[..|s| - 1], s[|s| - 1];
      SortByStable(init, key, v);
      InsertStable(SortBy(init, key), x, key, v);
      var t := SortBy(init, key) + [x];
      assert t[..|t| - 1] == SortBy(init, key);
    }
  }

  /** `SortBy` returns a sorted permutation of its input. */
  lemma {:induction false} SortByFacts<T>(s: seq<T>, key: T -> real)
    ensures SortedBy(SortBy(s, key), key)
    ensures |SortBy(s, key)| == |s|
    ensures multiset(SortBy(s, key)) == multiset(s)
    decreases |s|
  {
    if |s| > 0 {
      var init, x := s[..|s| - 1], s[|s| - 1];
      assert s == init + [x];
      SortByFacts(init, key);
      InsertSorted(SortBy(init, key), x, key);
      InsertPermutes(SortBy(init, key), x, key);
    }
  }

  lemma SortedPair<T>(t: seq<T>, key: T -> real, i: int, j: int)
    requires SortedBy(t, key) && 0 <= i <= j < |t|
    ensures key(t[i]) <= key(t[j])
  {
  }

  lemma {:induction false} SortByCount<T>(s: seq<T>, key: T -> real, v: real, strict: bool)
    ensures CountUpTo(SortBy(s, key), key, v, strict) == CountUpTo(s, key, v, strict)
    decreases |s|
  {
    if |s| > 0 {
      var init, x := s[..|s| - 1], s[|s| - 1];
      assert s == init + [x];
      SortByCount(init, key, v, strict);
      InsertCount(SortBy(init, key), x, key, v, strict);
      CountAppend(SortBy(init, key), [x], key, v, strict);
      CountAppend(init, [x], key, v, strict);
    }
  }

  /** Sorting a sequence that is already sorted leaves it as it is. */
  lemma {:induction false} SortBySorted<T>(s: seq<T>, key: T -> real)
    requires SortedBy(s, key)
    ensures SortBy(s, key) == s
    decreases |s|
  {
    if |s| > 0 {
      var init, x := s[..|s| - 1], s[|s| - 1];
      assert SortedBy(init, key) by {
        forall i, j | 0 <= i < j < |init|
          ensures key(init[i]) <= key(init[j])
        {
          assert init[i] == s[i] && init[j] == s[j];
        }
      }
      SortBySorted(init, key);
      if |init| > 0 {
        assert init[|init| - 1] == s[|s| - 2];
      }
      assert Insert(init, x, key) == init + [x];
      assert s == init + [x];
    }
  }

  lemma {:induction false} CountBound<T>(s: seq<T>, key: T -> real, v: real, strict: bool)
    ensures CountUpTo(s, key, v, strict) <= |s|
    decreases |s|
  {
    if |s| > 0 { CountBound(s[..|s| - 1], key, v, strict); }
  }

  lemma {:induction false} CountNone<T>(s: seq<T>, key: T -> real, v: real)
    requires forall i :: 0 <= i < |s| ==> key(s[i]) >= v
    ensures CountUpTo(s, key, v, true) == 0
    decreases |s|
  {
    if |s| > 0 { CountNone(s[..|s| - 1], key, v); }
  }

  lemma {:induction false} CountAll<T>(s: seq<T>, key: T -> real, v: real)
    requires forall i :: 0 <= i < |s| ==> key(s[i]) <= v
    ensures CountUpTo(s, key, v, false) == |s|
    decreases |s|
  {
    if |s| > 0 { CountAll(s[..|s| - 1], key, v); }
  }

  lemma {:induction false} MiddleBelow<T>(s: seq<T>, key: T -> real)
    requires |s| > 0
    ensures |SortBy(s, key)| == |s|
    ensures CountUpTo(s, key, key(SortBy(s, key)[|s| / 2]), true) <= |s| / 2
  {
    SortByLength(s, key);
    SortByIsSorted(s, key);
    var t := SortBy(s, key);
    var mid := |s| / 2;
    var v := key(t[mid]);
    SortByCount(s, key, v, true);
    var prefix, suffix := t[..mid], t[mid..];
    assert t == prefix + suffix;
    forall i | 0 <= i < |suffix| ensures key(suffix[i]) >= v {
      assert suffix[i] == t[mid + i];
      SortedPair(t, key, mid, mid + i);
    }
    CountAppend(prefix, suffix, key, v, true);
    CountNone(suffix, key, v);
    CountBound(prefix, key, v, true);
  }

  lemma {:induction false} MiddleAtMost<T>(s: seq<T>, key: T -> real)
    requires |s| > 0
    ensures |SortBy(s, key)| == |s|
    ensures CountUpTo(s, key, key(SortBy(s, key)[|s| / 2]), false) > |s| / 2
  {
    SortByLength(s, key);
    SortByIsSorted(s, key);
    var t := SortBy(s, key);
    var mid := |s| / 2;
    var v := key(t[mid]);
    SortByCount(s, key, v, false);
    var prefix, suffix := t[..mid + 1], t[mid + 1..];
    assert t == prefix + suffix;
    forall i | 0 <= i < |prefix| ensures key(prefix[i]) <= v {
      assert prefix[i] == t[i];
      SortedPair(t, key, i, mid);
    }
    CountAppend(prefix, suffix, key, v, false);
    CountAll(prefix, key, v);
  }

  /**
   * The element at index `|s| / 2` of the sorted sequence is an order statistic of `s`:
   * at most `|s| / 2` elements of `s` have a smaller key and more than `|s| / 2` have a
   * key at most its key.
   */
  lemma {:induction false} MiddleIsOrderStatistic<T>(s: seq<T>, key: T -> real)
    requires |s| > 0
    ensures |SortBy(s, key)| == |s|
    ensures SortBy(s, key)[|s| / 2] in multiset(s)
    ensures CountUpTo(s, key, key(SortBy(s, key)[|s| / 2]), true) <= |s| / 2
    ensures CountUpTo(s, key, key(SortBy(s, key)[|s| / 2]), false) > |s| / 2
  {
    SortByFacts(s, key);
    var t := SortBy(s, key);
    assert t[|s| / 2] in multiset(t);
    MiddleBelow(s, key);
    MiddleAtMost(s, key);
  }

  lemma InsertShift<T>(s: seq<T>, x: T, key: T -> real, j: nat)
    requires 0 < j <= |s| && key(s[j - 1]) > key(x)
    ensures Insert(s[..j], x, key) + s[j..] == Insert(s[..j - 1], x, key) + s[j - 1..]
  {
    assert s[..j][..j - 1] == s[..j - 1];
    assert s[j - 1..] == [s[j - 1]] + s[j..];
  }

  lemma InsertStop<T>(s: seq<T>, x: T, key: T -> real, j: nat)
    requires j <= |s| && (j == 0 || key(s[j - 1]) <= key(x))
    ensures Insert(s[..j], x, key) + s[j..] == s[..j] + [x] + s[j..]
  {
  }

  /**
   * One step of the insertion sort: inserts `a[i]` into the sorted prefix `a[..i]`.
   */
  method InsertAt<T>(a: array<T>, i: nat, key: T -> real)
    requires i < a.Length
    modifies a
    ensures a[..i + 1] == Insert(old(a[..i]), old(a[i]), key)
    ensures a[i + 1..] == old(a[i + 1..])
  {
    var x := a[i];
    ghost var s := a[..i];
    ghost var target := Insert(s, x, key);
    var j := i;
    assert s[..j] == s && s[j..] == [];
    while j > 0 && key(a[j - 1]) > key(x)
      invariant 0 <= j <= i
      invariant forall k :: 0 <= k < j ==> a[k] == s[k]
      invariant forall k :: j < k <= i ==> a[k] == s[k - 1]
      invariant forall k :: i < k < a.Length ==> a[k] == old(a[k])
      invariant target == Insert(s[..j], x, key) + s[j..]
    {
      ShiftStep(s, x, key, j, a[j - 1], target);
      a[j] := a[j - 1];
      j := j - 1;
    }
    InsertStop(s, x, key, j);
    a[j] := x;
    Assemble(a[..i + 1], s, x, j);
  }

  /** One shift of the insertion loop keeps the target's decomposition. */
  lemma ShiftStep<T>(s: seq<T>, x: T, key: T -> real, j: nat, y: T, target: seq<T>)
    requires 0 < j <= |s| && y == s[j - 1] && key(y) > key(x)
    requires target == Insert(s[..j], x, key) + s[j..]
    ensures target == Insert(s[..j - 1], x, key) + s[j - 1..]
  {
    InsertShift(s, x, key, j);
  }

  /** A sequence that agrees with `s` before `j`, holds `x` at `j` and `s` shifted after it. */
  lemma Assemble<T>(b: seq<T>, s: seq<T>, x: T, j: nat)
    requires j <= |s| && |b| == |s| + 1
    requires forall k :: 0 <= k < j ==> b[k] == s[k]
    requires b[j] == x
    requires forall k :: j < k <= |s| ==> b[k] == s[k - 1]
    ensures b == s[..j] + [x] + s[j..]
  {
  }

  /** `list.sort(key=key)`: sorts the array in place, stably. */
  method SortInPlace<T>(a: array<T>, key: T -> real)
    modifies a
    ensures a[..] == SortBy(old(a[..]), key)
  {
    ghost var orig := a[..];
    var i := 0;
    while i < a.Length
      invariant 0 <= i <= a.Length
      invariant a[..i] == SortBy(orig[..i], key)
      invariant a[i..] == orig[i..]
    {
      assert a[i] == orig[i];
      InsertAt(a, i, key);
      assert orig[..i + 1][..i] == orig[..i];
      i := i + 1;
    }
    assert a[..] == a[..a.Length];
    assert orig == orig[..a.Length];
  }
}
