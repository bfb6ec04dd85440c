/** Small generic building blocks shared by the page models: an optional value,
    and the few array operations the scripts call on cart lines (findIndex,
    filter, reduce), stated over a line type `T` and a projection. */
module Basics {

  datatype Option<T> = None | Some(value: T)

  function Max(a: int, b: int): int { if a >= b then a else b }

  /** Some element of `s` has key `k`. */
  predicate HasKey<T>(s: seq<T>, key: T -> string, k: string) {
    exists i :: 0 <= i < |s| && key(s[i]) == k
  }

  /** `Array.prototype.findIndex(item => key(item) === k)`: the first index whose
      key is `k`, or -1 when there is none. */
  function FindIndex<T>(s: seq<T>, key: T -> string, k: string): (r: int)
    ensures -1 <= r < |s|
    ensures r >= 0 ==> key(s[r]) == k
    ensures forall j :: 0 <= j < |s| && (r == -1 || j < r) ==> key(s[j]) != k
    ensures r == -1 <==> !HasKey(s, key, k)
    decreases |s|
  {
    if |s| == 0 then -1
    else if key(s[0]) == k then 0
    else
      var r := FindIndex(s[1..], key, k);
      if r == -1 then -1 else r + 1
  }

  /** `s.filter(item => key(item) !== k)`. */
  function WithoutKey<T>(s: seq<T>, key: T -> string, k: string): (r: seq<T>)
    ensures |r| <= |s|
    ensures forall i :: 0 <= i < |r| ==> key(r[i]) != k
    decreases |s|
  {
    if |s| == 0 then []
    else (if key(s[0]) == k then [] else [s[0]]) + WithoutKey(s[1..], key, k)
  }

  /** `s.reduce((acc, item) => acc + f(item), 0)`. */
  function SumOf<T>(s: seq<T>, f: T -> int): int
    decreases |s|
  {
    if |s| == 0 then 0 else f(s[0]) + SumOf(s[1..], f)
  }

  /** No two lines share a key. */
  predicate UniqueKeys<T>(s: seq<T>, key: T -> string) {
    forall i, j :: 0 <= i < j < |s| ==> key(s[i]) != key(s[j])
  }

  /** Every line's projected value is at least `floor`. */
  predicate AllAtLeast<T>(s: seq<T>, f: T -> int, floor: int) {
    forall i :: 0 <= i < |s| ==> f(s[i]) >= floor
  }

  // ---------------------------------------------------------------------------
  // Filtering keeps the relative order of the survivors

  /** Filtering distributes over concatenation, so the lines that survive keep
      their relative order. */
  lemma {:induction false} WithoutKeyAppend<T>(a: seq<T>, b: seq<T>, key: T -> string, k: string)
    ensures WithoutKey(a + b, key, k) == WithoutKey(a, key, k) + WithoutKey(b, key, k)
    decreases |a|
  {
    if |a| == 0 {
      assert a + b == b;
    } else {
      assert (a + b)[1..] == a[1..] + b;
      WithoutKeyAppend(a[1..], b, key, k);
    }
  }

  /** Filtering out a key no line has changes nothing. */
  lemma {:induction false} WithoutAbsentKey<T>(s: seq<T>, key: T -> string, k: string)
    requires !HasKey(s, key, k)
    ensures WithoutKey(s, key, k) == s
    decreases |s|
  {
    if |s| > 0 {
      assert key(s[0]) != k;
      assert !HasKey(s[1..], key, k) by {
        forall i | 0 <= i < |s[1..]| ensures key(s[1..][i]) != k {
          assert s[1..][i] == s[i + 1];
        }
      }
      WithoutAbsentKey(s[1..], key, k);
      assert [s[0]] + s[1..] == s;
    }
  }

  /** With unique keys, filtering a key out is removing the one line found for it. */
  lemma {:induction false} WithoutUniqueKey<T>(s: seq<T>, key: T -> string, k: string)
    requires UniqueKeys(s, key)
    requires FindIndex(s, key, k) >= 0
    ensures var i := FindIndex(s, key, k); WithoutKey(s, key, k) == s[..i] + s[i + 1..]
    decreases |s|
  {
    UniqueTail(s, key);
    if key(s[0]) == k {
      UniqueHeadAbsent(s, key);
      WithoutAbsentKey(s[1..], key, k);
      assert WithoutKey(s, key, k) == WithoutKey(s[1..], key, k);
    } else {
      var tail := s[1..];
      var i := FindIndex(tail, key, k);
      assert FindIndex(s, key, k) == i + 1;
      WithoutUniqueKey(tail, key, k);
      assert WithoutKey(s, key, k) == [s[0]] + (tail[..i] + tail[i + 1..]);
      assert s[..i + 1] == [s[0]] + tail[..i];
      assert s[i + 2..] == tail[i + 1..];
    }
  }

  lemma UniqueTail<T>(s: seq<T>, key: T -> string)
    requires |s| > 0 && UniqueKeys(s, key)
    ensures UniqueKeys(s[1..], key)
  {
    var tail := s[1..];
    forall a, b | 0 <= a < b < |tail| ensures key(tail[a]) != key(tail[b]) {
      assert tail[a] == s[a + 1] && tail[b] == s[b + 1];
    }
  }

  lemma UniqueHeadAbsent<T>(s: seq<T>, key: T -> string)
    requires |s| > 0 && UniqueKeys(s, key)
    ensures !HasKey(s[1..], key, key(s[0]))
  {
    var tail := s[1..];
    forall j | 0 <= j < |tail| ensures key(tail[j]) != key(s[0]) {
      assert tail[j] == s[j + 1];
    }
  }

  /** Filtering keeps exactly the lines with another key: each kept line comes
      from the input, and each input line with another key is kept. */
  lemma {:induction false} WithoutKeyMembers<T>(s: seq<T>, key: T -> string, k: string)
    ensures forall i :: 0 <= i < |WithoutKey(s, key, k)| ==> WithoutKey(s, key, k)[i] in s
    ensures forall i :: 0 <= i < |s| && key(s[i]) != k ==> s[i] in WithoutKey(s, key, k)
    decreases |s|
  {
    if |s| > 0 {
      var rest := WithoutKey(s[1..], key, k);
      WithoutKeyMembers(s[1..], key, k);
      var head := if key(s[0]) == k then [] else [s[0]];
      var r := head + rest;
      assert WithoutKey(s, key, k) == r;
      forall i | 0 <= i < |r| ensures r[i] in s {
        if i < |head| {
          assert r[i] == s[0];
        } else {
          assert r[i] == rest[i - |head|];
          assert rest[i - |head|] in s[1..];
        }
      }
      forall i | 0 <= i < |s| && key(s[i]) != k ensures s[i] in r {
        if i == 0 {
          assert r[0] == s[0];
        } else {
          assert s[i] == s[1..][i - 1];
          assert s[i] in rest;
        }
      }
    }
  }

  /** Filtering keeps keys unique. */
  lemma {:induction false} WithoutKeyUnique<T>(s: seq<T>, key: T -> string, k: string)
    requires UniqueKeys(s, key)
    ensures UniqueKeys(WithoutKey(s, key, k), key)
    decreases |s|
  {
    if |s| > 0 {
      var tail := WithoutKey(s[1..], key, k);
      assert UniqueKeys(s[1..], key) by {
        forall i, j | 0 <= i < j < |s[1..]| ensures key(s[1..][i]) != key(s[1..][j]) {
          assert s[1..][i] == s[i + 1] && s[1..][j] == s[j + 1];
        }
      }
      WithoutKeyUnique(s[1..], key, k);
      if key(s[0]) != k {
        WithoutKeyMembers(s[1..], key, k);
        forall t | 0 <= t < |tail| ensures key(tail[t]) != key(s[0]) {
          var x := tail[t];
          assert x in s[1..];
          var j :| 0 <= j < |s[1..]| && s[1..][j] == x;
          assert s[j + 1] == x;
        }
        var r := [s[0]] + tail;
        forall i, j | 0 <= i < j < |r| ensures key(r[i]) != key(r[j]) {
          if i == 0 {
            assert r[j] == tail[j - 1];
          } else {
            assert r[i] == tail[i - 1] && r[j] == tail[j - 1];
          }
        }
      } else {
        assert WithoutKey(s, key, k) == tail;
      }
    }
  }

  // ---------------------------------------------------------------------------
  // How sums change under the cart edits

  lemma {:induction false} SumAppend<T>(a: seq<T>, b: seq<T>, f: T -> int)
    ensures SumOf(a + b, f) == SumOf(a, f) + SumOf(b, f)
    decreases |a|
  {
    if |a| == 0 {
      assert a + b == b;
    } else {
      assert (a + b)[1..] == a[1..] + b;
      SumAppend(a[1..], b, f);
    }
  }

  /** Replacing one line changes the sum by the difference of that line's values. */
  lemma {:induction false} SumUpdate<T>(s: seq<T>, i: nat, x: T, f: T -> int)
    requires i < |s|
    ensures SumOf(s[i := x], f) == SumOf(s, f) - f(s[i]) + f(x)
  {
    assert s == s[..i] + [s[i]] + s[i + 1..];
    assert s[i := x] == s[..i] + [x] + s[i + 1..];
    SumAppend(s[..i] + [s[i]], s[i + 1..], f);
    SumAppend(s[..i], [s[i]], f);
    SumAppend(s[..i] + [x], s[i + 1..], f);
    SumAppend(s[..i], [x], f);
    assert SumOf([x], f) == f(x) by { assert [x][1..] == []; }
    assert SumOf([s[i]], f) == f(s[i]) by { assert [s[i]][1..] == []; }
  }

  /** Removing one line subtracts that line's value. */
  lemma {:induction false} SumRemoveAt<T>(s: seq<T>, i: nat, f: T -> int)
    requires i < |s|
    ensures SumOf(s[..i] + s[i + 1..], f) == SumOf(s, f) - f(s[i])
  {
    assert s == s[..i] + [s[i]] + s[i + 1..];
    SumAppend(s[..i] + [s[i]], s[i + 1..], f);
    SumAppend(s[..i], [s[i]], f);
    SumAppend(s[..i], s[i + 1..], f);
    assert SumOf([s[i]], f) == f(s[i]) by { assert [s[i]][1..] == []; }
  }

  /** Appending one line adds its value. */
  lemma SumSnoc<T>(s: seq<T>, x: T, f: T -> int)
    ensures SumOf(s + [x], f) == SumOf(s, f) + f(x)
  {
    SumAppend(s, [x], f);
    assert SumOf([x], f) == f(x) by { assert [x][1..] == []; }
  }

  // ---------------------------------------------------------------------------
  // Keys stay unique under the cart edits

  /** Replacing a line by one with the same key keeps keys unique. */
  lemma UniqueAfterUpdate<T>(s: seq<T>, i: nat, x: T, key: T -> string)
    requires i < |s| && UniqueKeys(s, key) && key(x) == key(s[i])
    ensures UniqueKeys(s[i := x], key)
  {
  }

  /** Appending a line whose key is new keeps keys unique. */
  lemma UniqueAfterAppend<T>(s: seq<T>, x: T, key: T -> string)
    requires UniqueKeys(s, key) && !HasKey(s, key, key(x))
    ensures UniqueKeys(s + [x], key)
  {
    var r := s + [x];
    forall i, j | 0 <= i < j < |r| ensures key(r[i]) != key(r[j]) {
      if j == |s| {
        assert r[i] == s[i];
      } else {
        assert r[i] == s[i] && r[j] == s[j];
      }
    }
  }

  /** Removing the line at one index keeps keys unique. */
  lemma UniqueAfterRemoveAt<T>(s: seq<T>, i: nat, key: T -> string)
    requires i < |s| && UniqueKeys(s, key)
    ensures UniqueKeys(s[..i] + s[i + 1..], key)
  {
    var r := s[..i] + s[i + 1..];
    forall a, b | 0 <= a < b < |r| ensures key(r[a]) != key(r[b]) {
      var a' := if a < i then a else a + 1;
      var b' := if b < i then b else b + 1;
      assert r[a] == s[a'] && r[b] == s[b'];
    }
  }
}
