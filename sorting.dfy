/**
 * `Array.prototype.sort` with a comparator of the form `key(b) - key(a)`:
 * a stable sort into non-increasing key order. `StableSort` is the
 * reference definition; `SortDescending` sorts an array in place and is
 * proved to produce exactly the reference result.
 */
module Sorting {
  import Seqs

  /** Keys never increase from left to right. */
  ghost predicate SortedDesc<T>(s: seq<T>, key: T -> int)
  {
    forall i, j :: 0 <= i < j < |s| ==> key(s[i]) >= key(s[j])
  }

  /** Inserting `x` into `t`: it goes after every element whose key is at least its own. */
  function Insert<T>(t: seq<T>, x: T, key: T -> int): (r: seq<T>)
    ensures |r| == |t| + 1
    decreases |t|
  {
    if t == [] || key(t[|t| - 1]) >= key(x) then t + [x]
    else Insert(t[..|t| - 1], x, key) + [t[|t| - 1]]
  }

  /** Inserting adds exactly the one element. */
  lemma {:induction false} InsertPermutes<T>(t: seq<T>, x: T, key: T -> int)
    ensures multiset(Insert(t, x, key)) == multiset(t) + multiset{x}
    decreases |t|
  {
    if t != [] && key(t[|t| - 1]) < key(x) {
      assert t == t[..|t| - 1] + [t[|t| - 1]];
      InsertPermutes(t[..|t| - 1], x, key);
    }
  }

  /** Insertion sort, read as a function: sort all but the last element, then insert it. */
  function StableSort<T>(s: seq<T>, key: T -> int): (r: seq<T>)
    ensures |r| == |s|
    decreases |s|
  {
    if s == [] then [] else Insert(StableSort(s[..|s| - 1], key), s[|s| - 1], key)
  }

  /** Inserting into a sorted sequence keeps it sorted. */
  lemma {:induction false} InsertSorted<T>(t: seq<T>, x: T, key: T -> int)
    requires SortedDesc(t, key)
    ensures SortedDesc(Insert(t, x, key), key)
    decreases |t|
  {
    if t == [] || key(t[|t| - 1]) >= key(x) {
    } else {
      var u := t[..|t| - 1];
      var last := t[|t| - 1];
      InsertSorted(u, x, key);
      InsertPermutes(u, x, key);
      var r := Insert(u, x, key);
      forall i | 0 <= i < |r|
        ensures key(r[i]) >= key(last)
      {
        assert r[i] in multiset(u) + multiset{x} by {
          assert r[i] in multiset(r);
        }
        if r[i] in multiset(u) {
          var k :| 0 <= k < |u| && u[k] == r[i];
          assert t[k] == u[k];
        }
      }
    }
  }

  /** The sort puts keys in non-increasing order. */
  lemma {:induction false} StableSortSorted<T>(s: seq<T>, key: T -> int)
    ensures SortedDesc(StableSort(s, key), key)
    decreases |s|
  {
    if s != [] {
      StableSortSorted(s[..|s| - 1], key);
      InsertSorted(StableSort(s[..|s| - 1], key), s[|s| - 1], key);
    }
  }

  /** The sort is a permutation of its input. */
  lemma {:induction false} StableSortPermutes<T>(s: seq<T>, key: T -> int)
    ensures multiset(StableSort(s, key)) == multiset(s)
    decreases |s|
  {
    if s != [] {
      StableSortPermutes(s[..|s| - 1], key);
      InsertPermutes(StableSort(s[..|s| - 1], key), s[|s| - 1], key);
      assert s == s[..|s| - 1] + [s[|s| - 1]];
    }
  }

  /** The elements whose key is `k`. */
  function KeyIs<T>(key: T -> int, k: int): T -> bool
  {
    (y: T) => key(y) == k
  }

  /** Inserting `x` appends it to its own key class and leaves the other classes alone. */
  lemma {:induction false} InsertKeyClass<T>(t: seq<T>, x: T, key: T -> int, k: int)
    ensures Seqs.Filter(KeyIs(key, k), Insert(t, x, key))
         == Seqs.Filter(KeyIs(key, k), t) + (if key(x) == k then [x] else [])
    decreases |t|
  {
    var p := KeyIs(key, k);
    if t == [] || key(t[|t| - 1]) >= key(x) {
      Seqs.FilterSnoc(p, t, x);
    } else {
      var u := t[..|t| - 1];
      var last := t[|t| - 1];
      assert t == u + [last];
      assert Insert(t, x, key) == Insert(u, x, key) + [last];
      var f := Seqs.Filter(p, u);
      var xs: seq<T> := if p(x) then [x] else [];
      var ls: seq<T> := if p(last) then [last] else [];
      assert p(x) <==> key(x) == k;
      InsertKeyClass(u, x, key, k);
      Seqs.FilterSnoc(p, Insert(u, x, key), last);
      assert Seqs.Filter(p, Insert(t, x, key)) == f + xs + ls;
      Seqs.FilterSnoc(p, u, last);
      assert Seqs.Filter(p, t) == f + ls;
      assert xs == [] || ls == [];
      assert f + xs + ls == f + ls + xs;
    }
  }

  /**
   * Stability: elements with equal keys keep their relative order, i.e.
   * every key class of the result is that key class of the input.
   */
  lemma {:induction false} StableSortStable<T>(s: seq<T>, key: T -> int, k: int)
    ensures Seqs.Filter(KeyIs(key, k), StableSort(s, key)) == Seqs.Filter(KeyIs(key, k), s)
    decreases |s|
  {
    if s != [] {
      var u := s[..|s| - 1];
      assert s == u + [s[|s| - 1]];
      StableSortStable(u, key, k);
      InsertKeyClass(StableSort(u, key), s[|s| - 1], key, k);
      Seqs.FilterSnoc(KeyIs(key, k), u, s[|s| - 1]);
    }
  }

  /** Where `x` lands when the elements from `j` on have smaller keys and the one before does not. */
  lemma {:induction false} InsertAt<T>(t: seq<T>, x: T, key: T -> int, j: int)
    requires 0 <= j <= |t|
    requires forall m :: j <= m < |t| ==> key(t[m]) < key(x)
    requires j == 0 || key(t[j - 1]) >= key(x)
    ensures Insert(t, x, key) == t[..j] + [x] + t[j..]
    decreases |t|
  {
    if j == |t| {
      assert t[..j] == t;
    } else {
      var u := t[..|t| - 1];
      var last := t[|t| - 1];
      assert key(last) < key(x);
      assert Insert(t, x, key) == Insert(u, x, key) + [last];
      assert forall m :: j <= m < |u| ==> u[m] == t[m];
      assert j == 0 || u[j - 1] == t[j - 1];
      InsertAt(u, x, key, j);
      assert u[..j] == t[..j];
      assert u[j..] + [last] == t[j..];
    }
  }

  /** Sorting one more element of a prefix inserts it into the sorted prefix. */
  lemma StableSortExtend<T>(s: seq<T>, i: int, key: T -> int)
    requires 0 <= i < |s|
    ensures StableSort(s[..i + 1], key) == Insert(StableSort(s[..i], key), s[i], key)
  {
    assert s[..i + 1][..i] == s[..i];
  }

  /**
   * The in-place insertion sort: at every step the prefix `a[..i]` is the
   * reference sort of the original prefix.
   */
  method SortDescending<T>(a: array<T>, key: T -> int)
    modifies a
    ensures a[..] == StableSort(old(a[..]), key)
  {
    ghost var orig := a[..];
    var i := 0;
    while i < a.Length
      invariant 0 <= i <= a.Length
      invariant a[..i] == StableSort(orig[..i], key)
      invariant a[i..] == orig[i..]
    {
      assert a[i] == orig[i];
      StableSortExtend(orig, i, key);
      InsertNext(a, i, key);
      assert a[i + 1..] == orig[i + 1..];
      i := i + 1;
    }
    assert a[..] == a[..a.Length];
    assert orig[..a.Length] == orig;
  }

  /**
   * One step of the sort: `a[i]` moves left past the elements of the
   * sorted prefix whose key is strictly smaller, which is what keeps the
   * sort stable.
   */
  method InsertNext<T>(a: array<T>, i: int, key: T -> int)
    requires 0 <= i < a.Length
    modifies a
    ensures a[..i + 1] == Insert(old(a[..i]), old(a[i]), key)
    ensures a[i + 1..] == old(a[i + 1..])
  {
    var x := a[i];
    ghost var sorted := a[..i];
    var j := i;
    while j > 0 && key(a[j - 1]) < key(x)
      invariant 0 <= j <= i
      invariant forall k :: 0 <= k < j ==> a[k] == sorted[k]
      invariant forall k :: j < k <= i ==> a[k] == sorted[k - 1]
      invariant forall k :: i < k < a.Length ==> a[k] == old(a[k])
      invariant forall m :: j <= m < i ==> key(sorted[m]) < key(x)
    {
      a[j] := a[j - 1];
      j := j - 1;
    }
    a[j] := x;
    InsertAt(sorted, x, key, j);
    assert a[..i + 1] == sorted[..j] + [x] + sorted[j..] by {
      forall k | 0 <= k < i + 1
        ensures a[..i + 1][k] == (sorted[..j] + [x] + sorted[j..])[k]
      {
        if k < j {
        } else if k == j {
        } else {
          assert (sorted[..j] + [x] + sorted[j..])[k] == sorted[k - 1];
        }
      }
    }
    assert a[i + 1..] == old(a[i + 1..]) by {
      forall k | i < k < a.Length ensures a[k] == old(a[k]) { }
    }
  }

  /** `[...tools].sort(...)`: the input copied into a fresh array, which is then sorted. */
  method SortCopy<T>(s: seq<T>, key: T -> int) returns (r: seq<T>)
    ensures r == StableSort(s, key)
  {
    var a := new T[|s|](i requires 0 <= i < |s| => s[i]);
    assert a[..] == s;
    SortDescending(a, key);
    r := a[..];
  }
}
