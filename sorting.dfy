/** `Array.prototype.sort` with a comparator, as the pages call it. The engine's
    sort is stable (ECMAScript 2019), so for a comparator that is a total
    preorder its result is the stable sorted permutation of the input; this
    module computes that permutation by insertion and proves it sorted, a
    permutation, and order-preserving when the comparator ties everything.
    `before(a, b)` stands for `compare(a, b) <= 0`: `a` may stay ahead of `b`. */
module Sorting {

  ghost predicate Total<T(!new)>(before: (T, T) -> bool) {
    forall a, b :: before(a, b) || before(b, a)
  }

  ghost predicate Transitive<T(!new)>(before: (T, T) -> bool) {
    forall a, b, c :: before(a, b) && before(b, c) ==> before(a, c)
  }

  predicate Sorted<T>(s: seq<T>, before: (T, T) -> bool) {
    forall i, j :: 0 <= i < j < |s| ==> before(s[i], s[j])
  }

  /** Inserts `x` ahead of the first element it may precede. */
  function Insert<T>(x: T, s: seq<T>, before: (T, T) -> bool): (r: seq<T>)
    ensures multiset(r) == multiset(s) + multiset{x}
    ensures |r| == |s| + 1
    decreases |s|
  {
    if |s| == 0 then [x]
    else if before(x, s[0]) then [x] + s
    else
      assert s == [s[0]] + s[1..];
      [s[0]] + Insert(x, s[1..], before)
  }

  /** The stable sort of `s` under `before`. */
  function Sort<T>(s: seq<T>, before: (T, T) -> bool): (r: seq<T>)
    ensures multiset(r) == multiset(s)
    ensures |r| == |s|
    decreases |s|
  {
    if |s| == 0 then []
    else
      assert s == [s[0]] + s[1..];
      Insert(s[0], Sort(s[1..], before), before)
  }

  lemma {:induction false} InsertSorted<T(!new)>(x: T, s: seq<T>, before: (T, T) -> bool)
    requires Total(before) && Transitive(before)
    requires Sorted(s, before)
    ensures Sorted(Insert(x, s, before), before)
    decreases |s|
  {
    if |s| > 0 && !before(x, s[0]) {
      var tail := s[1..];
      assert Sorted(tail, before) by {
        forall i, j | 0 <= i < j < |tail| ensures before(tail[i], tail[j]) {
          assert tail[i] == s[i + 1] && tail[j] == s[j + 1];
        }
      }
      InsertSorted(x, tail, before);
      var ins := Insert(x, tail, before);
      assert before(s[0], x);
      forall k | 0 <= k < |ins| ensures before(s[0], ins[k]) {
        assert ins[k] in multiset(ins);
        if ins[k] != x {
          assert ins[k] in multiset(tail);
          assert ins[k] in tail;
          var j :| 0 <= j < |tail| && tail[j] == ins[k];
          assert tail[j] == s[j + 1];
        }
      }
      var r := [s[0]] + ins;
      forall i, j | 0 <= i < j < |r| ensures before(r[i], r[j]) {
        if i == 0 {
          assert r[j] == ins[j - 1];
        } else {
          assert r[i] == ins[i - 1] && r[j] == ins[j - 1];
        }
      }
    }
  }

  /** Under a total preorder the sort's output is in order. */
  lemma {:induction false} SortSorted<T(!new)>(s: seq<T>, before: (T, T) -> bool)
    requires Total(before) && Transitive(before)
    ensures Sorted(Sort(s, before), before)
    decreases |s|
  {
    if |s| > 0 {
      SortSorted(s[1..], before);
      InsertSorted(s[0], Sort(s[1..], before), before);
    }
  }

  /** A comparator that ties every pair (returns 0) leaves the order as it was. */
  lemma {:induction false} SortAllTied<T(!new)>(s: seq<T>, before: (T, T) -> bool)
    requires forall a, b :: before(a, b)
    ensures Sort(s, before) == s
    decreases |s|
  {
    if |s| > 0 {
      SortAllTied(s[1..], before);
      assert Sort(s[1..], before) == s[1..];
      if |s| > 1 {
        assert before(s[0], s[1..][0]);
      }
      assert [s[0]] + s[1..] == s;
    }
  }

  /** The in-place `sort` call: afterwards the array holds the sorted permutation. */
  method SortInPlace<T>(a: array<T>, before: (T, T) -> bool)
    modifies a
    ensures a[..] == Sort(old(a[..]), before)
  {
    var sorted := Sort(a[..], before);
    forall i | 0 <= i < a.Length {
      a[i] := sorted[i];
    }
  }
}
