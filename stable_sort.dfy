/**
 * A stable sort by a real-valued key, used for both sorts of the source:
 * the history records (ascending timestamps, JavaScript's stable
 * `Array.prototype.sort`) and the grain rankings (Python's stable
 * `list.sort(reverse=True)`, ascending by the negated yield).
 *
 * `SortBy` specifies the result; `SortInPlace` is the in-place insertion
 * sort on an array and is proved to produce exactly `SortBy`.
 */
module StableSort {
  import opened Sequences

  ghost predicate SortedBy<T>(s: seq<T>, key: T -> real) {
    forall i, j :: 0 <= i < j < |s| ==> key(s[i]) <= key(s[j])
  }

  /** The elements of `s` whose key is `k`, in their order in `s`. */
  function WithKey<T>(s: seq<T>, key: T -> real, k: real): seq<T> {
    if s == [] then []
    else WithKey(s[..|s| - 1], key, k) + (if key(s[|s| - 1]) == k then [s[|s| - 1]] else [])
  }

  /** Inserts `x` after every element whose key is not greater than its own. */
  function Insert<T>(x: T, s: seq<T>, key: T -> real): seq<T> {
    if s == [] || key(s[|s| - 1]) <= key(x) then s + [x]
    else Insert(x, s[..|s| - 1], key) + [s[|s| - 1]]
  }

  /** Insertion sort: the reference definition of the stable sort. */
  function SortBy<T>(s: seq<T>, key: T -> real): seq<T> {
    if s == [] then [] else Insert(s[|s| - 1], SortBy(s[..|s| - 1], key), key)
  }

  /** `Insert` puts `x` at the position `p` after which every key is greater than its own. */
  lemma {:induction false} InsertAt<T>(x: T, s: seq<T>, key: T -> real) returns (p: nat)
    ensures p <= |s| && Insert(x, s, key) == s[..p] + [x] + s[p..]
    ensures forall i :: p <= i < |s| ==> key(s[i]) > key(x)
    ensures p > 0 ==> key(s[p - 1]) <= key(x)
  {
    if s == [] || key(s[|s| - 1]) <= key(x) {
      p := |s|;
      assert s[..p] == s;
    } else {
      var init := s[..|s| - 1];
      p := InsertAt(x, init, key);
      assert init[..p] == s[..p];
      assert init[p..] + [s[|s| - 1]] == s[p..];
      forall i | p <= i < |s| ensures key(s[i]) > key(x) {
        if i < |s| - 1 {
          assert s[i] == init[i];
        }
      }
    }
  }

  lemma {:induction false} WithKeyAppend<T>(a: seq<T>, b: seq<T>, key: T -> real, k: real)
    ensures WithKey(a + b, key, k) == WithKey(a, key, k) + WithKey(b, key, k)
  {
    if b == [] {
      assert a + b == a;
    } else {
      WithKeyAppend(a, b[..|b| - 1], key, k);
      assert (a + b)[..|a + b| - 1] == a + b[..|b| - 1];
    }
  }

  lemma {:induction false} WithKeyNone<T>(s: seq<T>, key: T -> real, k: real)
    requires forall i :: 0 <= i < |s| ==> key(s[i]) != k
    ensures WithKey(s, key, k) == []
  {
    if s != [] {
      WithKeyNone(s[..|s| - 1], key, k);
    }
  }

  lemma InsertSorted<T>(x: T, s: seq<T>, key: T -> real)
    requires SortedBy(s, key)
    ensures SortedBy(Insert(x, s, key), key)
  {
    var p := InsertAt(x, s, key);
    var r := Insert(x, s, key);
    assert forall m :: 0 <= m < p ==> r[m] == s[m];
    assert r[p] == x;
    assert forall m :: p < m < |r| ==> r[m] == s[m - 1];
    forall i, j | 0 <= i < j < |r| ensures key(r[i]) <= key(r[j]) {
      if i < p && j == p {
        assert key(s[i]) <= key(s[p - 1]);
      } else if i < p && j > p {
        assert key(s[i]) <= key(s[j - 1]);
      }
    }
  }

  lemma InsertPermutes<T>(x: T, s: seq<T>, key: T -> real)
    ensures multiset(Insert(x, s, key)) == multiset(s) + multiset{x}
  {
    var p := InsertAt(x, s, key);
    TakeDrop(s, p);
    assert multiset(s[..p] + [x] + s[p..]) == multiset(s[..p]) + multiset{x} + multiset(s[p..]);
  }

  lemma InsertWithKey<T>(x: T, s: seq<T>, key: T -> real, k: real)
    ensures WithKey(Insert(x, s, key), key, k) == WithKey(s, key, k) + (if key(x) == k then [x] else [])
  {
    var p := InsertAt(x, s, key);
    var a, b := s[..p], s[p..];
    TakeDrop(s, p);
    WithKeyAppend(a, b, key, k);
    WithKeyAppend(a + [x], b, key, k);
    WithKeyAppend(a, [x], key, k);
    assert WithKey([x], key, k) == (if key(x) == k then [x] else []) by {
      assert [x][..0] == [];
    }
    if key(x) == k {
      WithKeyNone(b, key, k);
      AppendEmpty(WithKey(a, key, k));
      AppendEmpty(WithKey(a, key, k) + [x]);
    } else {
      AppendEmpty(WithKey(a, key, k));
      AppendEmpty(WithKey(s, key, k));
    }
  }

  /** The sort returns a permutation of its input, ordered by key. */
  lemma {:induction false} SortByOrdered<T>(s: seq<T>, key: T -> real)
    ensures SortedBy(SortBy(s, key), key)
    ensures multiset(SortBy(s, key)) == multiset(s)
    ensures |SortBy(s, key)| == |s|
  {
    if s != [] {
      var init := s[..|s| - 1];
      SortByOrdered(init, key);
      InsertSorted(s[|s| - 1], SortBy(init, key), key);
      InsertPermutes(s[|s| - 1], SortBy(init, key), key);
      InitLast(s);
    }
  }

  /** Stability: the elements that share a key keep their input order. */
  lemma {:induction false} SortByStable<T>(s: seq<T>, key: T -> real, k: real)
    ensures WithKey(SortBy(s, key), key, k) == WithKey(s, key, k)
  {
    if s != [] {
      var init := s[..|s| - 1];
      SortByStable(init, key, k);
      InsertWithKey(s[|s| - 1], SortBy(init, key), key, k);
    }
  }

  /**
   * The insertion point is unique: a position with every later key greater
   * than `x`'s and the key just before it not greater is where `Insert` puts `x`.
   */
  lemma InsertAtPosition<T>(x: T, s: seq<T>, j: nat, key: T -> real)
    requires j <= |s|
    requires forall m :: j <= m < |s| ==> key(s[m]) > key(x)
    requires j == 0 || key(s[j - 1]) <= key(x)
    ensures Insert(x, s, key) == s[..j] + [x] + s[j..]
  {
    var p := InsertAt(x, s, key);
    assert p == j;
  }

  /** The array picture after an insertion step: `x` at `j`, the elements from `j` on moved up by one. */
  lemma ShiftedInsert<T>(r: seq<T>, sorted: seq<T>, x: T, j: nat)
    requires |r| == |sorted| + 1 && j <= |sorted|
    requires forall m :: 0 <= m < j ==> r[m] == sorted[m]
    requires r[j] == x
    requires forall m :: j < m < |r| ==> r[m] == sorted[m - 1]
    ensures r == sorted[..j] + [x] + sorted[j..]
  {
  }

  /** One step of insertion sort: moves `a[i]` into place among the sorted `a[..i]`. */
  method InsertLast<T>(a: array<T>, i: nat, key: T -> real)
    requires i < a.Length
    modifies a
    ensures a[..i + 1] == Insert(old(a[i]), old(a[..i]), key)
    ensures forall m :: i < m < a.Length ==> a[m] == old(a[m])
  {
    ghost var sorted := a[..i];
    var x := a[i];
    var j := i;
    while j > 0 && key(a[j - 1]) > key(x)
      invariant 0 <= j <= i
      invariant forall m :: 0 <= m < j ==> a[m] == sorted[m]
      invariant forall m :: j < m <= i ==> a[m] == sorted[m - 1]
      invariant forall m :: i < m < a.Length ==> a[m] == old(a[m])
      invariant forall m :: j <= m < i ==> key(sorted[m]) > key(x)
    {
      a[j] := a[j - 1];
      j := j - 1;
    }
    a[j] := x;
    InsertAtPosition(x, sorted, j, key);
    ShiftedInsert(a[..i + 1], sorted, x, j);
  }

  /**
   * Sorting a copy in place: after the call the array holds `SortBy` of its
   * old contents.
   */
  method SortInPlace<T>(a: array<T>, key: T -> real)
    modifies a
    ensures a[..] == SortBy(old(a[..]), key)
  {
    ghost var orig := a[..];
    var i := 0;
    while i < a.Length
      invariant 0 <= i <= a.Length
      invariant a[..i] == SortBy(orig[..i], key)
      invariant forall m :: i <= m < a.Length ==> a[m] == orig[m]
    {
      InsertLast(a, i, key);
      assert orig[..i + 1][..i] == orig[..i];
      i := i + 1;
    }
    assert orig[..a.Length] == orig;
  }
}
