/** The list operations the store's queries are built from: a `where` filter,
    an `orderBy` on an integer key, and `skip`/`take` pagination. */
module Ordering {

  /** `xs` is in non-decreasing order of `key`. */
  predicate SortedBy<T>(xs: seq<T>, key: T -> int)
  {
    forall i, j :: 0 <= i < j < |xs| ==> key(xs[i]) <= key(xs[j])
  }

  function Min(a: int, b: int): int
  {
    if a <= b then a else b
  }

  /** The elements of `xs` that satisfy `p`, in their original order. */
  function Filter<T>(xs: seq<T>, p: T -> bool): (r: seq<T>)
    ensures multiset(r) <= multiset(xs)
    ensures forall x :: x in xs && p(x) ==> multiset(r)[x] == multiset(xs)[x]
    ensures forall i :: 0 <= i < |r| ==> p(r[i])
  {
    if xs == [] then []
    else
      var rest := Filter(xs[1..], p);
      FilterStep(xs, p, rest);
      if p(xs[0]) then [xs[0]] + rest else rest
  }

  /** The multiset facts `Filter` keeps, one element at a time. */
  lemma FilterStep<T>(xs: seq<T>, p: T -> bool, rest: seq<T>)
    requires xs != []
    requires multiset(rest) <= multiset(xs[1..])
    requires forall x :: x in xs[1..] && p(x) ==> multiset(rest)[x] == multiset(xs[1..])[x]
    ensures var r := if p(xs[0]) then [xs[0]] + rest else rest;
      && multiset(r) <= multiset(xs)
      && forall x :: x in xs && p(x) ==> multiset(r)[x] == multiset(xs)[x]
  {
    assert xs == [xs[0]] + xs[1..];
    assert multiset(xs) == multiset{xs[0]} + multiset(xs[1..]);
    var r := if p(xs[0]) then [xs[0]] + rest else rest;
    forall x | x in xs && p(x)
      ensures multiset(r)[x] == multiset(xs)[x]
    {
      if x !in xs[1..] {
        assert x == xs[0];
        assert multiset(xs[1..])[x] == 0;
        assert multiset(rest)[x] == 0;
      }
    }
  }

  /** Inserts `x` into a sorted list before the first element whose key is not smaller. */
  function Insert<T>(x: T, xs: seq<T>, key: T -> int): (r: seq<T>)
    requires SortedBy(xs, key)
    ensures SortedBy(r, key)
    ensures multiset(r) == multiset(xs) + multiset{x}
    ensures |r| == |xs| + 1
    ensures r[0] == x || (xs != [] && r[0] == xs[0])
  {
    if xs == [] then [x]
    else if key(x) <= key(xs[0]) then [x] + xs
    else
      var rest := Insert(x, xs[1..], key);
      InsertStep(x, xs, key, rest);
      [xs[0]] + rest
  }

  /** What `Insert` keeps when `x` goes after the head of `xs`. */
  lemma InsertStep<T>(x: T, xs: seq<T>, key: T -> int, rest: seq<T>)
    requires SortedBy(xs, key) && xs != [] && key(xs[0]) < key(x)
    requires SortedBy(rest, key) && multiset(rest) == multiset(xs[1..]) + multiset{x}
    requires |rest| == |xs| && (rest[0] == x || (|xs| > 1 && rest[0] == xs[1]))
    ensures SortedBy([xs[0]] + rest, key)
    ensures multiset([xs[0]] + rest) == multiset(xs) + multiset{x}
  {
    assert xs == [xs[0]] + xs[1..];
    SortedCons(xs[0], rest, key);
  }

  /** An element no greater than the head of a sorted list can go in front of it. */
  lemma SortedCons<T>(x: T, xs: seq<T>, key: T -> int)
    requires SortedBy(xs, key) && xs != [] && key(x) <= key(xs[0])
    ensures SortedBy([x] + xs, key)
  {
    var r := [x] + xs;
    forall i, j | 0 <= i < j < |r| ensures key(r[i]) <= key(r[j]) {
      assert r[j] == xs[j - 1];
      if i > 0 {
        assert r[i] == xs[i - 1];
      } else {
        assert key(xs[0]) <= key(xs[j - 1]);
      }
    }
  }

  /** Insertion sort: a sorted permutation of `xs`. */
  function SortBy<T>(xs: seq<T>, key: T -> int): (r: seq<T>)
    ensures SortedBy(r, key)
    ensures multiset(r) == multiset(xs)
    ensures |r| == |xs|
  {
    if xs == [] then []
    else
      assert xs == [xs[0]] + xs[1..];
      Insert(xs[0], SortBy(xs[1..], key), key)
  }

  /** Skips `offset` elements and keeps at most `limit` of the rest. */
  function Page<T>(xs: seq<T>, offset: nat, limit: nat): (r: seq<T>)
    ensures |r| == Min(limit, if offset <= |xs| then |xs| - offset else 0)
    ensures forall i :: 0 <= i < |r| ==> offset + i < |xs| && r[i] == xs[offset + i]
  {
    if offset >= |xs| then []
    else xs[offset..offset + Min(limit, |xs| - offset)]
  }

  /** A page of a sorted list is sorted. */
  lemma PageOfSorted<T>(xs: seq<T>, key: T -> int, offset: nat, limit: nat)
    requires SortedBy(xs, key)
    ensures SortedBy(Page(xs, offset, limit), key)
  {
    var r := Page(xs, offset, limit);
    forall i, j | 0 <= i < j < |r| ensures key(r[i]) <= key(r[j]) {
      assert r[i] == xs[offset + i] && r[j] == xs[offset + j];
    }
  }

  /** Consecutive pages tile the list: the page of `a` elements at `offset` followed by
      the page of `b` elements right after it is the page of `a + b` elements. */
  lemma PageSplit<T>(xs: seq<T>, offset: nat, a: nat, b: nat)
    ensures Page(xs, offset, a) + Page(xs, offset + a, b) == Page(xs, offset, a + b)
  {
    var p, q, r := Page(xs, offset, a), Page(xs, offset + a, b), Page(xs, offset, a + b);
    if offset + a < |xs| {
      assert |p| == a;
      forall i | 0 <= i < |r| ensures (p + q)[i] == r[i] {
        if i >= a {
          assert (p + q)[i] == q[i - a];
        }
      }
    }
  }

  /** In a sorted list, every element of the first `k` has a key no greater than any
      element after them: taking a prefix keeps the smallest keys. */
  lemma PrefixHoldsSmallest<T>(xs: seq<T>, key: T -> int, k: nat, x: T)
    requires SortedBy(xs, key) && k <= |xs|
    requires x in xs && x !in xs[..k]
    ensures forall i :: 0 <= i < k ==> key(xs[i]) <= key(x)
  {
    var j :| 0 <= j < |xs| && xs[j] == x;
    assert k <= j;
  }

  /** Every element of a sorted filter satisfies the filter. */
  lemma SortedFilterSatisfies<T>(xs: seq<T>, p: T -> bool, key: T -> int)
    ensures forall i :: 0 <= i < |SortBy(Filter(xs, p), key)| ==> p(SortBy(Filter(xs, p), key)[i])
  {
    var f := Filter(xs, p);
    var sorted := SortBy(f, key);
    forall i | 0 <= i < |sorted| ensures p(sorted[i]) {
      assert sorted[i] in multiset(sorted);
      assert sorted[i] in f;
    }
  }

  /** The `limit` smallest elements satisfying `p`, in order of `key`: a `where`, an
      `orderBy` and a `take`. Whatever satisfies `p` and is left out is no smaller than
      anything taken, and is only left out when `limit` elements were taken. */
  function SmallestBy<T>(xs: seq<T>, p: T -> bool, key: T -> int, limit: nat): (r: seq<T>)
    ensures forall i :: 0 <= i < |r| ==> p(r[i])
    ensures SortedBy(r, key)
    ensures |r| <= limit
    ensures multiset(r) <= multiset(xs)
    ensures forall x :: x in xs && p(x) && x !in r ==>
              |r| == limit && forall i :: 0 <= i < |r| ==> key(r[i]) <= key(x)
  {
    var sorted := SortBy(Filter(xs, p), key);
    var r := sorted[..Min(limit, |sorted|)];
    SortedFilterSatisfies(xs, p, key);
    PrefixOfSorted(sorted, key, |r|);
    PrefixSmallest(xs, p, key, sorted, r);
    r
  }

  /** A prefix of a sorted list is sorted and is a sub-multiset of it. */
  lemma PrefixOfSorted<T>(xs: seq<T>, key: T -> int, k: nat)
    requires SortedBy(xs, key) && k <= |xs|
    ensures SortedBy(xs[..k], key)
    ensures multiset(xs[..k]) <= multiset(xs)
    ensures forall i :: 0 <= i < k ==> xs[..k][i] == xs[i]
  {
    assert xs == xs[..k] + xs[k..];
    assert multiset(xs) == multiset(xs[..k]) + multiset(xs[k..]);
  }

  lemma PrefixSmallest<T>(xs: seq<T>, p: T -> bool, key: T -> int, sorted: seq<T>, r: seq<T>)
    requires sorted == SortBy(Filter(xs, p), key)
    requires |r| <= |sorted| && r == sorted[..|r|]
    ensures forall x :: x in xs && p(x) && x !in r ==>
              |r| < |sorted| && forall i :: 0 <= i < |r| ==> key(r[i]) <= key(x)
  {
    forall x | x in xs && p(x) && x !in r
      ensures |r| < |sorted| && forall i :: 0 <= i < |r| ==> key(r[i]) <= key(x)
    {
      assert x in multiset(sorted);
      PrefixHoldsSmallest(sorted, key, |r|, x);
    }
  }
}
