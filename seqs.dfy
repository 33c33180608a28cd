/**
 * Order-preserving selection over sequences: the model of JavaScript's
 * `Array.prototype.filter`, `find`, `findIndex` and `slice`, with the
 * characterisations that the storage getters and the catalog page rely on.
 */
module Seqs {
  import opened Wrappers

  /** `s.filter(p)`: the elements of `s` that satisfy `p`, in order. */
  function Filter<T>(p: T -> bool, s: seq<T>): (r: seq<T>)
    ensures |r| <= |s|
    ensures forall i :: 0 <= i < |r| ==> r[i] in s && p(r[i])
    ensures forall i :: 0 <= i < |s| && p(s[i]) ==> s[i] in r
  {
    if s == [] then [] else (if p(s[0]) then [s[0]] else []) + Filter(p, s[1..])
  }

  /** `r[k]` is the element of `s` at position `idx[k]`. */
  ghost predicate Picks<T>(r: seq<T>, s: seq<T>, idx: seq<int>)
  {
    |idx| == |r| && forall k :: 0 <= k < |idx| ==> 0 <= idx[k] < |s| && r[k] == s[idx[k]]
  }

  ghost predicate Increasing(idx: seq<int>)
  {
    forall k, l :: 0 <= k < l < |idx| ==> idx[k] < idx[l]
  }

  /** `idx` holds exactly the positions of `s` whose element satisfies `p`. */
  ghost predicate Covers<T>(s: seq<T>, p: T -> bool, idx: seq<int>)
  {
    forall i :: 0 <= i < |s| ==> (p(s[i]) <==> i in idx)
  }

  /**
   * `idx` lists, in strictly increasing order, exactly the positions of `s`
   * whose element satisfies `p`, and `r` holds the elements at those positions.
   */
  ghost predicate IsSelection<T>(r: seq<T>, s: seq<T>, p: T -> bool, idx: seq<int>)
  {
    Picks(r, s, idx) && Increasing(idx) && Covers(s, p, idx)
  }

  /** `r` is the subsequence of `s` made of exactly the elements satisfying `p`. */
  ghost predicate SelectsInOrder<T>(r: seq<T>, s: seq<T>, p: T -> bool)
  {
    exists idx :: IsSelection(r, s, p, idx)
  }

  /** Adds `d` to every index of `idx`. */
  function Shift(idx: seq<int>, d: int): (r: seq<int>)
    ensures |r| == |idx|
    ensures forall k :: 0 <= k < |idx| ==> r[k] == idx[k] + d
  {
    seq(|idx|, k requires 0 <= k < |idx| => idx[k] + d)
  }

  /** The positions `Filter(p, s)` keeps, in increasing order. */
  function FilterPositions<T>(p: T -> bool, s: seq<T>): seq<int>
  {
    if s == [] then [] else (if p(s[0]) then [0] else []) + Shift(FilterPositions(p, s[1..]), 1)
  }

  /** Strictly increasing indices below `n` number at most `n`. */
  lemma {:induction false} IncreasingBelow(idx: seq<int>, n: int)
    requires 0 <= n
    requires forall k :: 0 <= k < |idx| ==> 0 <= idx[k] < n
    requires Increasing(idx)
    ensures |idx| <= n
  {
    if idx != [] {
      var last := |idx| - 1;
      var front := idx[..last];
      assert forall k :: 0 <= k < |front| ==> front[k] == idx[k] && idx[k] < idx[last];
      IncreasingBelow(front, idx[last]);
    }
  }

  lemma ConsPicks<T>(r: seq<T>, s: seq<T>, idx: seq<int>)
    requires s != [] && Picks(r, s[1..], idx)
    ensures Picks([s[0]] + r, s, [0] + Shift(idx, 1))
  {
    var idx2 := [0] + Shift(idx, 1);
    var r2 := [s[0]] + r;
    forall k | 0 <= k < |idx2|
      ensures 0 <= idx2[k] < |s| && r2[k] == s[idx2[k]]
    {
      if k > 0 {
        assert idx2[k] == idx[k - 1] + 1 && r2[k] == r[k - 1];
      }
    }
  }

  lemma ShiftIncreasing(idx: seq<int>, d: int)
    requires Increasing(idx)
    ensures Increasing(Shift(idx, d))
  {
  }

  lemma ConsIncreasing(idx: seq<int>)
    requires Increasing(idx) && forall k :: 0 <= k < |idx| ==> 0 <= idx[k]
    ensures Increasing([0] + Shift(idx, 1))
  {
    var idx2 := [0] + Shift(idx, 1);
    forall k, l | 0 <= k < l < |idx2|
      ensures idx2[k] < idx2[l]
    {
      assert idx2[l] == idx[l - 1] + 1;
      if k > 0 {
        assert idx2[k] == idx[k - 1] + 1;
      }
    }
  }

  lemma ConsCovers<T>(s: seq<T>, p: T -> bool, idx: seq<int>)
    requires s != [] && p(s[0])
    requires Covers(s[1..], p, idx)
    ensures Covers(s, p, [0] + Shift(idx, 1))
  {
    var idx2 := [0] + Shift(idx, 1);
    forall i | 0 <= i < |s|
      ensures p(s[i]) <==> i in idx2
    {
      if i > 0 {
        assert s[i] == s[1..][i - 1];
        if p(s[i]) {
          var k :| 0 <= k < |idx| && idx[k] == i - 1;
          assert idx2[k + 1] == i;
        }
        if i in idx2 {
          var k :| 0 <= k < |idx2| && idx2[k] == i;
          assert k > 0;
          assert idx[k - 1] == i - 1;
        }
      }
    }
  }

  lemma SkipPicks<T>(r: seq<T>, s: seq<T>, idx: seq<int>)
    requires s != [] && Picks(r, s[1..], idx)
    ensures Picks(r, s, Shift(idx, 1))
  {
    var idx2 := Shift(idx, 1);
    forall k | 0 <= k < |idx2|
      ensures 0 <= idx2[k] < |s| && r[k] == s[idx2[k]]
    {
      assert s[idx2[k]] == s[1..][idx[k]];
    }
  }

  lemma SkipCovers<T>(s: seq<T>, p: T -> bool, idx: seq<int>)
    requires s != [] && !p(s[0])
    requires Covers(s[1..], p, idx)
    requires forall k :: 0 <= k < |idx| ==> 0 <= idx[k]
    ensures Covers(s, p, Shift(idx, 1))
  {
    var idx2 := Shift(idx, 1);
    forall i | 0 <= i < |s|
      ensures p(s[i]) <==> i in idx2
    {
      if i > 0 {
        assert s[i] == s[1..][i - 1];
        if p(s[i]) {
          var k :| 0 <= k < |idx| && idx[k] == i - 1;
          assert idx2[k] == i;
        }
        if i in idx2 {
          var k :| 0 <= k < |idx2| && idx2[k] == i;
          assert idx[k] == i - 1;
        }
      } else {
        assert forall k :: 0 <= k < |idx2| ==> idx2[k] >= 1;
      }
    }
  }

  lemma {:induction false} FilterPositionsSelect<T>(p: T -> bool, s: seq<T>)
    ensures IsSelection(Filter(p, s), s, p, FilterPositions(p, s))
  {
    if s != [] {
      var r, idx := Filter(p, s[1..]), FilterPositions(p, s[1..]);
      FilterPositionsSelect(p, s[1..]);
      ShiftIncreasing(idx, 1);
      if p(s[0]) {
        ConsPicks(r, s, idx);
        ConsIncreasing(idx);
        ConsCovers(s, p, idx);
      } else {
        SkipPicks(r, s, idx);
        SkipCovers(s, p, idx);
      }
    }
  }

  /** Every filter result is the in-order selection of its predicate's elements. */
  lemma FilterSelectsInOrder<T>(p: T -> bool, s: seq<T>)
    ensures SelectsInOrder(Filter(p, s), s, p)
  {
    FilterPositionsSelect(p, s);
  }

  lemma UnconsPicks<T>(r: seq<T>, s: seq<T>, idx: seq<int>)
    requires Picks(r, s, idx) && Increasing(idx) && |idx| > 0 && idx[0] == 0
    ensures Picks(r[1..], s[1..], Shift(idx[1..], -1))
  {
    var idx' := Shift(idx[1..], -1);
    forall k | 0 <= k < |idx'|
      ensures 0 <= idx'[k] < |s[1..]| && r[1..][k] == s[1..][idx'[k]]
    {
      assert idx[0] < idx[k + 1];
    }
  }

  lemma UnconsCovers<T>(s: seq<T>, p: T -> bool, idx: seq<int>)
    requires Covers(s, p, idx) && |idx| > 0 && idx[0] == 0 && Increasing(idx) && |s| > 0
    ensures Covers(s[1..], p, Shift(idx[1..], -1))
  {
    var s' := s[1..];
    var idx' := Shift(idx[1..], -1);
    forall i | 0 <= i < |s'|
      ensures p(s'[i]) <==> i in idx'
    {
      assert s'[i] == s[i + 1];
      if p(s'[i]) {
        var k :| 0 <= k < |idx| && idx[k] == i + 1;
        assert idx'[k - 1] == i;
      }
      if i in idx' {
        var k :| 0 <= k < |idx'| && idx'[k] == i;
        assert idx[k + 1] == i + 1;
      }
    }
  }

  /** A selection of `s` whose first element is kept restricts to `s[1..]`. */
  lemma UnconsSelection<T>(r: seq<T>, s: seq<T>, p: T -> bool, idx: seq<int>)
    requires s != [] && p(s[0])
    requires IsSelection(r, s, p, idx)
    ensures |r| > 0 && r[0] == s[0]
    ensures IsSelection(r[1..], s[1..], p, Shift(idx[1..], -1))
  {
    assert 0 in idx;
    var k0 :| 0 <= k0 < |idx| && idx[k0] == 0;
    assert idx[0] <= idx[k0];
    assert idx[0] == 0;
    UnconsPicks(r, s, idx);
    UnconsCovers(s, p, idx);
    assert Increasing(idx[1..]);
    ShiftIncreasing(idx[1..], -1);
  }

  /** A selection of `s` whose first element is dropped is one of `s[1..]`. */
  lemma UnskipSelection<T>(r: seq<T>, s: seq<T>, p: T -> bool, idx: seq<int>)
    requires s != [] && !p(s[0])
    requires IsSelection(r, s, p, idx)
    ensures IsSelection(r, s[1..], p, Shift(idx, -1))
  {
    var s' := s[1..];
    var idx' := Shift(idx, -1);
    forall k | 0 <= k < |idx'|
      ensures 0 <= idx'[k] < |s'| && r[k] == s'[idx'[k]]
    {
      assert idx[k] != 0;
    }
    forall i | 0 <= i < |s'|
      ensures p(s'[i]) <==> i in idx'
    {
      assert s'[i] == s[i + 1];
      if p(s'[i]) {
        var k :| 0 <= k < |idx| && idx[k] == i + 1;
        assert idx'[k] == i;
      }
      if i in idx' {
        var k :| 0 <= k < |idx'| && idx'[k] == i;
        assert idx[k] == i + 1;
      }
    }
    ShiftIncreasing(idx, -1);
  }

  /** The in-order selection of `p`'s elements is unique: it is `Filter(p, s)`. */
  lemma {:induction false} SelectionIsFilter<T>(r: seq<T>, s: seq<T>, p: T -> bool, idx: seq<int>)
    requires IsSelection(r, s, p, idx)
    ensures r == Filter(p, s)
  {
    if s == [] {
      IncreasingBelow(idx, 0);
      assert |r| == |idx| == 0;
    } else if p(s[0]) {
      UnconsSelection(r, s, p, idx);
      SelectionIsFilter(r[1..], s[1..], p, Shift(idx[1..], -1));
      assert Filter(p, s) == [s[0]] + Filter(p, s[1..]);
      assert r == [r[0]] + r[1..];
    } else {
      UnskipSelection(r, s, p, idx);
      SelectionIsFilter(r, s[1..], p, Shift(idx, -1));
      assert Filter(p, s) == Filter(p, s[1..]);
    }
  }

  /** Filtering distributes over concatenation. */
  lemma {:induction false} FilterConcat<T>(p: T -> bool, s: seq<T>, t: seq<T>)
    ensures Filter(p, s + t) == Filter(p, s) + Filter(p, t)
  {
    if s == [] {
      assert s + t == t;
    } else {
      assert (s + t)[1..] == s[1..] + t;
      FilterConcat(p, s[1..], t);
    }
  }

  /** Appending one element appends it to the filter result exactly when it passes. */
  lemma FilterSnoc<T>(p: T -> bool, s: seq<T>, x: T)
    ensures Filter(p, s + [x]) == Filter(p, s) + (if p(x) then [x] else [])
  {
    FilterConcat(p, s, [x]);
  }

  /** A predicate that every element satisfies keeps the whole sequence. */
  lemma {:induction false} FilterKeepsAll<T>(p: T -> bool, s: seq<T>)
    requires forall i :: 0 <= i < |s| ==> p(s[i])
    ensures Filter(p, s) == s
  {
    if s != [] {
      FilterKeepsAll(p, s[1..]);
    }
  }

  /** `s.findIndex(p)`: the first position whose element satisfies `p`. */
  function FindIndex<T>(p: T -> bool, s: seq<T>): (r: Option<nat>)
    ensures r.Some? ==> r.value < |s| && p(s[r.value])
    ensures r.Some? ==> forall j :: 0 <= j < r.value ==> !p(s[j])
    ensures r.None? <==> forall j :: 0 <= j < |s| ==> !p(s[j])
  {
    if s == [] then None
    else if p(s[0]) then Some(0)
    else match FindIndex(p, s[1..])
      case None => None
      case Some(i) => Some(i + 1)
  }

  /** `s.find(p)`: the first element satisfying `p`, or nothing. */
  function Find<T>(p: T -> bool, s: seq<T>): (r: Option<T>)
    ensures r.Some? ==> exists i :: 0 <= i < |s| && s[i] == r.value && p(s[i]) && forall j :: 0 <= j < i ==> !p(s[j])
    ensures r.None? <==> forall j :: 0 <= j < |s| ==> !p(s[j])
  {
    match FindIndex(p, s)
    case None => None
    case Some(i) => Some(s[i])
  }

  /** The bound `Array.prototype.slice` derives from a start or end argument. */
  function SliceBound(len: nat, x: int): (r: nat)
    ensures r <= len
    ensures 0 <= x <= len ==> r == x
  {
    if x < 0 then (if len + x < 0 then 0 else len + x)
    else if x < len then x else len
  }

  /** Clamping never widens the distance between two arguments. */
  lemma SliceBoundSpread(len: nat, x: int, y: int)
    ensures x <= y ==> SliceBound(len, y) - SliceBound(len, x) <= y - x
  {
  }

  /** `s.slice(start, end)`, negative arguments counting from the end. */
  function Slice<T>(s: seq<T>, start: int, end: int): (r: seq<T>)
    ensures |r| <= |s|
    ensures start <= end ==> |r| <= end - start
    ensures 0 <= start ==> forall k :: 0 <= k < |r| ==> start + k < |s| && r[k] == s[start + k]
    ensures 0 <= start <= end ==> |r| == (if end < |s| then end else |s|) - (if start < |s| then start else |s|)
  {
    var from := SliceBound(|s|, start);
    var to := SliceBound(|s|, end);
    SliceBoundSpread(|s|, start, end);
    if to <= from then [] else s[from..to]
  }
}
