/**
 * Grouping a list of records by a key, as the services do with a `LinkedHashMap` filled by
 * `computeIfAbsent(key, ...).add(record)` (keys in first-seen order) or with a `HashMap` /
 * `Collectors.groupingBy` (keys in an order the map chooses, given here as a parameter).
 */
module Grouping {
  import opened Decimal

  /** The distinct keys of `xs`, in the order of their first occurrence. */
  function Keys<T, K(==)>(xs: seq<T>, key: T -> K): seq<K>
  {
    if xs == [] then []
    else
      var ks := Keys(xs[..|xs| - 1], key);
      var k := key(xs[|xs| - 1]);
      if k in ks then ks else ks + [k]
  }

  /** The records of `xs` whose key is `k`, in their original order. */
  function Members<T, K(==)>(xs: seq<T>, key: T -> K, k: K): seq<T>
  {
    if xs == [] then []
    else
      var front := Members(xs[..|xs| - 1], key, k);
      if key(xs[|xs| - 1]) == k then front + [xs[|xs| - 1]] else front
  }

  /** The sum of `g` over the records of `xs` (`stream().map(g).reduce(ZERO, add)`). */
  function Total<T>(xs: seq<T>, g: T -> int): int
  {
    if xs == [] then 0 else Total(xs[..|xs| - 1], g) + g(xs[|xs| - 1])
  }

  predicate Distinct<K(==)>(ks: seq<K>) {
    forall i, j :: 0 <= i < j < |ks| ==> ks[i] != ks[j]
  }

  /** One entry of a grouping map: a key and the records filed under it. */
  datatype Group<K, T> = Group(key: K, members: seq<T>)

  /** The entries of the grouping of `xs`, listed in the key order `order`. */
  function GroupsOf<T, K(==)>(xs: seq<T>, key: T -> K, order: seq<K>): (gs: seq<Group<K, T>>)
    ensures |gs| == |order|
    ensures forall i :: 0 <= i < |order| ==> gs[i] == Group(order[i], Members(xs, key, order[i]))
  {
    seq(|order|, i requires 0 <= i < |order| => Group(order[i], Members(xs, key, order[i])))
  }

  /**
   * An iteration order a `HashMap` may choose for the grouping of `xs`: every key exactly once.
   */
  predicate IsKeyOrder<T, K(==)>(order: seq<K>, xs: seq<T>, key: T -> K) {
    var ks := Keys(xs, key);
    Distinct(order)
    && (forall i :: 0 <= i < |order| ==> order[i] in ks)
    && (forall i :: 0 <= i < |ks| ==> ks[i] in order)
  }

  /** The totals of `g` per group, for the keys `ks` in that order. */
  function GroupTotals<T, K(==)>(xs: seq<T>, key: T -> K, ks: seq<K>, g: T -> int): (r: seq<int>)
    ensures |r| == |ks|
    ensures forall i :: 0 <= i < |ks| ==> r[i] == Total(Members(xs, key, ks[i]), g)
  {
    if ks == [] then []
    else GroupTotals(xs, key, ks[..|ks| - 1], g) + [Total(Members(xs, key, ks[|ks| - 1]), g)]
  }

  // ---- The LinkedHashMap loop ----

  /**
   * `for (x : xs) map.computeIfAbsent(key(x), k -> new ArrayList<>()).add(x)` on a `LinkedHashMap`,
   * followed by a walk over its entries: one group per distinct key, in first-seen order.
   */
  method GroupByInsertion<T, K(==)>(xs: seq<T>, key: T -> K) returns (groups: seq<Group<K, T>>)
    ensures groups == GroupsOf(xs, key, Keys(xs, key))
  {
    var keys: seq<K> := [];
    var buckets: map<K, seq<T>> := map[];
    for i := 0 to |xs|
      invariant keys == Keys(xs[..i], key)
      invariant forall k :: k in buckets <==> k in keys
      invariant forall k :: k in buckets ==> buckets[k] == Members(xs[..i], key, k)
    {
      var k := key(xs[i]);
      assert xs[..i + 1][..i] == xs[..i];
      if k in buckets {
        buckets := buckets[k := buckets[k] + [xs[i]]];
      } else {
        AbsentKeyHasNoMembers(xs[..i], key, k);
        keys := keys + [k];
        buckets := buckets[k := [xs[i]]];
      }
    }
    assert xs[..|xs|] == xs;
    groups := [];
    for j := 0 to |keys|
      invariant |groups| == j
      invariant forall n :: 0 <= n < j ==> groups[n] == Group(keys[n], Members(xs, key, keys[n]))
    {
      groups := groups + [Group(keys[j], buckets[keys[j]])];
    }
  }

  // ---- Properties of the grouping ----

  /** A key that never occurs has no records. */
  lemma {:induction false} AbsentKeyHasNoMembers<T, K>(xs: seq<T>, key: T -> K, k: K)
    requires k !in Keys(xs, key)
    ensures Members(xs, key, k) == []
  {
    if xs != [] {
      AbsentKeyHasNoMembers(xs[..|xs| - 1], key, k);
    }
  }

  /** One more record adds its key if it is new and joins the group of its key. */
  lemma GroupingSnoc<T, K>(xs: seq<T>, x: T, key: T -> K)
    ensures Keys(xs + [x], key) == if key(x) in Keys(xs, key) then Keys(xs, key) else Keys(xs, key) + [key(x)]
    ensures forall k :: Members(xs + [x], key, k) == if key(x) == k then Members(xs, key, k) + [x] else Members(xs, key, k)
  {
    assert (xs + [x])[..|xs|] == xs;
  }

  /** `counts` holds, for every key of `xs` and no other, the number of records under it. */
  ghost predicate Tallies<T, K(!new)>(counts: map<K, nat>, xs: seq<T>, key: T -> K) {
    (forall k :: k in counts <==> k in Keys(xs, key))
    && (forall k :: k in counts ==> counts[k] == |Members(xs, key, k)|)
  }

  /** `map.merge(key(x), 1, Integer::sum)` keeps the counters in step with one more record. */
  lemma TalliesSnoc<T, K(!new)>(counts: map<K, nat>, xs: seq<T>, x: T, key: T -> K)
    requires Tallies(counts, xs, key)
    ensures Tallies(if key(x) in counts then counts[key(x) := counts[key(x)] + 1] else counts[key(x) := 1], xs + [x], key)
  {
    GroupingSnoc(xs, x, key);
    if key(x) !in counts {
      AbsentKeyHasNoMembers(xs, key, key(x));
    }
  }

  /** A key of the grouping has at least one record, and every record's key is a key. */
  lemma {:induction false} KeysCover<T, K>(xs: seq<T>, key: T -> K)
    ensures forall i :: 0 <= i < |xs| ==> key(xs[i]) in Keys(xs, key)
    ensures forall j :: 0 <= j < |Keys(xs, key)| ==> |Members(xs, key, Keys(xs, key)[j])| > 0
  {
    if xs != [] {
      var front := xs[..|xs| - 1];
      KeysCover(front, key);
      forall i | 0 <= i < |xs| - 1
        ensures xs[i] == front[i]
      {
      }
    }
  }

  /** Every record of a group carries the group's key. */
  lemma {:induction false} MembersHaveKey<T, K>(xs: seq<T>, key: T -> K, k: K)
    ensures forall i :: 0 <= i < |Members(xs, key, k)| ==> key(Members(xs, key, k)[i]) == k
  {
    if xs != [] {
      MembersHaveKey(xs[..|xs| - 1], key, k);
    }
  }

  /** Every record carrying key `k` is among the members of `k`. */
  lemma {:induction false} MembersComplete<T, K>(xs: seq<T>, key: T -> K, k: K)
    ensures forall i :: 0 <= i < |xs| && key(xs[i]) == k ==> xs[i] in Members(xs, key, k)
  {
    if xs != [] {
      var front := xs[..|xs| - 1];
      MembersComplete(front, key, k);
      forall i | 0 <= i < |xs| - 1
        ensures xs[i] == front[i]
      {
      }
    }
  }

  /** In any map order, every group has at least one record. */
  lemma KeyOrderGroupsNonEmpty<T, K>(xs: seq<T>, key: T -> K, order: seq<K>)
    requires IsKeyOrder(order, xs, key)
    ensures forall i :: 0 <= i < |order| ==> |Members(xs, key, order[i])| > 0
  {
    KeysCover(xs, key);
    forall i | 0 <= i < |order|
      ensures |Members(xs, key, order[i])| > 0
    {
      var ks := Keys(xs, key);
      assert order[i] in ks;
      var j :| 0 <= j < |ks| && ks[j] == order[i];
      assert |Members(xs, key, ks[j])| > 0;
    }
  }

  /** A group holds at most all the records. */
  lemma {:induction false} MembersAtMost<T, K>(xs: seq<T>, key: T -> K, k: K)
    ensures |Members(xs, key, k)| <= |xs|
  {
    if xs != [] {
      MembersAtMost(xs[..|xs| - 1], key, k);
    }
  }

  /** Keys never repeat. */
  lemma {:induction false} KeysDistinct<T, K>(xs: seq<T>, key: T -> K)
    ensures Distinct(Keys(xs, key))
  {
    if xs != [] {
      KeysDistinct(xs[..|xs| - 1], key);
    }
  }

  /**
   * First-seen order: the keys of any prefix of the records come first, in the same order, among the
   * keys of all the records.
   */
  lemma {:induction false} KeysOfPrefix<T, K>(xs: seq<T>, key: T -> K, n: nat)
    requires n <= |xs|
    ensures Keys(xs[..n], key) <= Keys(xs, key)
    decreases |xs|
  {
    if n < |xs| {
      var front := xs[..|xs| - 1];
      assert xs[..n] == front[..n];
      KeysOfPrefix(front, key, n);
    } else {
      assert xs[..n] == xs;
    }
  }

  /** A list without repeats holds every value at most once. */
  lemma {:induction false} DistinctCountsOne<K>(s: seq<K>, x: K)
    requires Distinct(s)
    ensures multiset(s)[x] <= 1
  {
    if s != [] {
      var front := s[..|s| - 1];
      assert s == front + [s[|s| - 1]];
      DistinctCountsOne(front, x);
      if x == s[|s| - 1] {
        assert x !in front;
      }
    }
  }

  /** Reordering a list without repeats leaves it without repeats. */
  lemma DistinctPermutation<K>(a: seq<K>, b: seq<K>)
    requires Distinct(a) && multiset(a) == multiset(b)
    ensures Distinct(b)
  {
    forall i, j | 0 <= i < j < |b|
      ensures b[i] != b[j]
    {
      if b[i] == b[j] {
        assert b == b[..i] + [b[i]] + b[i + 1..j] + [b[j]] + b[j + 1..];
        assert multiset(b)[b[i]] >= 2;
        DistinctCountsOne(a, b[i]);
      }
    }
  }

  /** The first-seen key order is a valid map order. */
  lemma KeysAreKeyOrder<T, K>(xs: seq<T>, key: T -> K)
    ensures IsKeyOrder(Keys(xs, key), xs, key)
  {
    KeysDistinct(xs, key);
  }

  /** The sum of the constant 1 over a list is its length. */
  lemma {:induction false} TotalOfOnes<T>(xs: seq<T>, g: T -> int)
    requires forall x :: g(x) == 1
    ensures Total(xs, g) == |xs|
  {
    if xs != [] {
      TotalOfOnes(xs[..|xs| - 1], g);
    }
  }

  lemma {:induction false} TotalNonNegative<T>(xs: seq<T>, g: T -> int)
    requires forall x :: g(x) >= 0
    ensures Total(xs, g) >= 0
  {
    if xs != [] {
      TotalNonNegative(xs[..|xs| - 1], g);
    }
  }

  /** Appending one record adds its weight to the total of the group of its key and to no other. */
  lemma {:induction false} TotalsStep<T, K>(xs: seq<T>, x: T, key: T -> K, ks: seq<K>, g: T -> int)
    requires Distinct(ks)
    ensures Sum(GroupTotals(xs + [x], key, ks, g))
         == Sum(GroupTotals(xs, key, ks, g)) + (if key(x) in ks then g(x) else 0)
  {
    var ys := xs + [x];
    assert ys[..|ys| - 1] == xs;
    if ks != [] {
      var front := ks[..|ks| - 1];
      var k := ks[|ks| - 1];
      TotalsStep(xs, x, key, front, g);
      var m := Members(xs, key, k);
      if key(x) == k {
        assert Members(ys, key, k) == m + [x];
        assert (m + [x])[..|m|] == m;
        assert key(x) !in front;
      } else {
        assert Members(ys, key, k) == m;
        assert key(x) in ks <==> key(x) in front;
      }
    }
  }

  /** With no records, every group total is zero. */
  lemma {:induction false} EmptyTotals<T, K>(key: T -> K, ks: seq<K>, g: T -> int)
    ensures Sum(GroupTotals([], key, ks, g)) == 0
  {
    if ks != [] {
      EmptyTotals(key, ks[..|ks| - 1], g);
    }
  }

  /**
   * The groups partition the records: summing the per-group totals over any list of distinct keys
   * that holds every record's key gives the total over all records.
   */
  lemma {:induction false} PartitionTotals<T, K>(xs: seq<T>, key: T -> K, ks: seq<K>, g: T -> int)
    requires Distinct(ks)
    requires forall i :: 0 <= i < |xs| ==> key(xs[i]) in ks
    ensures Sum(GroupTotals(xs, key, ks, g)) == Total(xs, g)
  {
    if xs == [] {
      EmptyTotals(key, ks, g);
    } else {
      var front := xs[..|xs| - 1];
      var x := xs[|xs| - 1];
      assert front + [x] == xs;
      PartitionTotals(front, key, ks, g);
      TotalsStep(front, x, key, ks, g);
    }
  }

  /** The same for the keys of a grouping taken in any map order. */
  lemma GroupingTotals<T, K>(xs: seq<T>, key: T -> K, order: seq<K>, g: T -> int)
    requires IsKeyOrder(order, xs, key)
    ensures Sum(GroupTotals(xs, key, order, g)) == Total(xs, g)
  {
    KeysCover(xs, key);
    PartitionTotals(xs, key, order, g);
  }
}
