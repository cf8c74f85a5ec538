/**
 * `stream().sorted(Comparator.comparing(w).reversed()).limit(n)`: a stable sort by a weight, largest
 * first, and truncation to the first `n` elements.
 */
module Sorting {

  /** Weights never increase along `s`. */
  predicate SortedDesc<T>(s: seq<T>, w: T -> int) {
    forall i, j :: 0 <= i < j < |s| ==> w(s[i]) >= w(s[j])
  }

  /** Inserts `x` into a list sorted by decreasing weight, after every element at least as heavy. */
  function InsertDesc<T>(s: seq<T>, x: T, w: T -> int): (r: seq<T>)
    requires SortedDesc(s, w)
    ensures SortedDesc(r, w)
    ensures multiset(r) == multiset(s) + multiset{x}
    ensures forall i :: 0 <= i < |r| ==> r[i] == x || r[i] in s
  {
    if s == [] || w(s[|s| - 1]) >= w(x) then s + [x]
    else
      var front := s[..|s| - 1];
      var last := s[|s| - 1];
      assert s == front + [last];
      var ins := InsertDesc(front, x, w);
      HeavierThanLast(ins, front, x, last, w);
      AppendLighter(ins, last, w);
      ins + [last]
  }

  lemma HeavierThanLast<T>(ins: seq<T>, front: seq<T>, x: T, last: T, w: T -> int)
    requires forall i :: 0 <= i < |ins| ==> ins[i] == x || ins[i] in front
    requires SortedDesc(front + [last], w)
    requires w(x) > w(last)
    ensures forall i :: 0 <= i < |ins| ==> w(ins[i]) >= w(last)
  {
    forall i | 0 <= i < |ins| && ins[i] != x
      ensures w(ins[i]) >= w(last)
    {
      var k :| 0 <= k < |front| && front[k] == ins[i];
      assert (front + [last])[k] == front[k] && (front + [last])[|front|] == last;
    }
  }

  /** An element no heavier than any of a sorted list may follow it. */
  lemma AppendLighter<T>(s: seq<T>, y: T, w: T -> int)
    requires SortedDesc(s, w)
    requires forall i :: 0 <= i < |s| ==> w(s[i]) >= w(y)
    ensures SortedDesc(s + [y], w)
  {
  }

  /** A stable sort of `s` by decreasing weight: equal weights keep their relative order. */
  function SortDesc<T>(s: seq<T>, w: T -> int): (r: seq<T>)
    ensures SortedDesc(r, w)
    ensures multiset(r) == multiset(s)
  {
    if s == [] then []
    else
      var front := s[..|s| - 1];
      assert s == front + [s[|s| - 1]];
      InsertDesc(SortDesc(front, w), s[|s| - 1], w)
  }

  /** The elements of `s` whose weight is `v`, in their order in `s`. */
  function WithWeight<T>(s: seq<T>, w: T -> int, v: int): seq<T> {
    if s == [] then []
    else WithWeight(s[..|s| - 1], w, v) + (if w(s[|s| - 1]) == v then [s[|s| - 1]] else [])
  }

  lemma WithWeightSnoc<T>(s: seq<T>, x: T, w: T -> int, v: int)
    ensures WithWeight(s + [x], w, v) == WithWeight(s, w, v) + (if w(x) == v then [x] else [])
  {
    assert (s + [x])[..|s|] == s;
  }

  /** An element no heavier than the last one is inserted at the end. */
  lemma InsertAtEnd<T>(s: seq<T>, x: T, w: T -> int)
    requires SortedDesc(s, w) && (s == [] || w(s[|s| - 1]) >= w(x))
    ensures InsertDesc(s, x, w) == s + [x]
  {
  }

  /** Inserting an element heavier than the last one goes past that last element. */
  lemma InsertPastLast<T>(s: seq<T>, x: T, w: T -> int)
    requires SortedDesc(s, w) && s != [] && w(s[|s| - 1]) < w(x)
    ensures SortedDesc(s[..|s| - 1], w)
    ensures InsertDesc(s, x, w) == InsertDesc(s[..|s| - 1], x, w) + [s[|s| - 1]]
  {
  }

  /**
   * Putting `last` after a list that ends with a heavier `x` keeps the order among equal weights, as if
   * `x` had come after `last`.
   */
  lemma PassLighter<T>(ins: seq<T>, s: seq<T>, front: seq<T>, x: T, last: T, w: T -> int, v: int)
    requires s == front + [last] && w(last) < w(x)
    requires WithWeight(ins, w, v) == WithWeight(front + [x], w, v)
    ensures WithWeight(ins + [last], w, v) == WithWeight(s + [x], w, v)
  {
    WithWeightSnoc(ins, last, w, v);
    WithWeightSnoc(front, x, w, v);
    WithWeightSnoc(front, last, w, v);
    WithWeightSnoc(s, x, w, v);
    var f := WithWeight(front, w, v);
    if w(x) == v {
      assert WithWeight(ins + [last], w, v) == f + [x];
    } else if w(last) == v {
      assert WithWeight(ins + [last], w, v) == f + [last];
    } else {
      assert WithWeight(ins + [last], w, v) == f;
    }
  }

  /** Inserting keeps the order among equal weights: `x` lands after every element as heavy as it. */
  lemma {:induction false} InsertStable<T>(s: seq<T>, x: T, w: T -> int, v: int)
    requires SortedDesc(s, w)
    ensures WithWeight(InsertDesc(s, x, w), w, v) == WithWeight(s + [x], w, v)
  {
    if s == [] || w(s[|s| - 1]) >= w(x) {
      InsertAtEnd(s, x, w);
    } else {
      var front, last := s[..|s| - 1], s[|s| - 1];
      assert s == front + [last];
      InsertPastLast(s, x, w);
      InsertStable(front, x, w, v);
      PassLighter(InsertDesc(front, x, w), s, front, x, last, w, v);
    }
  }

  /** The sort is stable: the elements of any one weight come out in the order they went in. */
  lemma {:induction false} SortStable<T>(s: seq<T>, w: T -> int, v: int)
    ensures WithWeight(SortDesc(s, w), w, v) == WithWeight(s, w, v)
  {
    if s != [] {
      var front := s[..|s| - 1];
      assert s == front + [s[|s| - 1]];
      SortStable(front, w, v);
      InsertStable(SortDesc(front, w), s[|s| - 1], w, v);
      WithWeightSnoc(SortDesc(front, w), s[|s| - 1], w, v);
      WithWeightSnoc(front, s[|s| - 1], w, v);
    }
  }

  /** `limit(n)`: the first `n` elements, or all of them when there are fewer. */
  function Take<T>(s: seq<T>, n: nat): (r: seq<T>)
    ensures |r| == if |s| < n then |s| else n
    ensures r <= s
  {
    if |s| <= n then s else s[..n]
  }

  /**
   * The first `n` of a sorted list are its `n` heaviest: nothing left out outweighs anything kept.
   */
  lemma TopOfSorted<T>(s: seq<T>, w: T -> int, n: nat)
    requires SortedDesc(s, w)
    ensures SortedDesc(Take(s, n), w)
    ensures forall i, j :: 0 <= i < |Take(s, n)| <= j < |s| ==> w(s[i]) >= w(s[j])
  {
  }
}
