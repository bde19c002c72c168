/**
 * Order-preserving filters keyed by an id, the shape every chart series and
 * the cluster detail list is built from: `xs.filter(x => key(x) === k)` and
 * `xs.filter(x => key(x) !== k)`.
 */
module Grouping {

  /** The elements of xs whose key is k, in their original order. */
  function Group<T, K(==)>(xs: seq<T>, key: T -> K, k: K): (g: seq<T>)
    ensures |g| <= |xs|
    ensures forall i :: 0 <= i < |g| ==> key(g[i]) == k && g[i] in xs
  {
    if xs == [] then []
    else
      var init := Group(xs[..|xs| - 1], key, k);
      if key(xs[|xs| - 1]) == k then init + [xs[|xs| - 1]] else init
  }

  /** The elements of xs whose key is not k, in their original order. */
  function Exclude<T, K(==)>(xs: seq<T>, key: T -> K, k: K): (g: seq<T>)
    ensures |g| <= |xs|
    ensures forall i :: 0 <= i < |g| ==> key(g[i]) != k && g[i] in xs
  {
    if xs == [] then []
    else
      var init := Exclude(xs[..|xs| - 1], key, k);
      if key(xs[|xs| - 1]) != k then init + [xs[|xs| - 1]] else init
  }

  /** A group holds exactly the elements with key k, each as often as xs does. */
  lemma {:induction false} GroupCount<T, K>(xs: seq<T>, key: T -> K, k: K, x: T)
    ensures multiset(Group(xs, key, k))[x] == if key(x) == k then multiset(xs)[x] else 0
  {
    if xs != [] {
      var init := xs[..|xs| - 1];
      GroupCount(init, key, k, x);
      assert xs == init + [xs[|xs| - 1]];
    }
  }

  /** Exclude drops exactly the elements with key k and keeps every other one
      as often as xs holds it. */
  lemma {:induction false} ExcludeCount<T, K>(xs: seq<T>, key: T -> K, k: K, x: T)
    ensures multiset(Exclude(xs, key, k))[x] == if key(x) != k then multiset(xs)[x] else 0
  {
    if xs != [] {
      var init := xs[..|xs| - 1];
      ExcludeCount(init, key, k, x);
      assert xs == init + [xs[|xs| - 1]];
    }
  }

  /** Grouping keeps the input order: grouping a concatenation concatenates
      the groups of the parts. */
  lemma {:induction false} GroupAppend<T, K>(a: seq<T>, b: seq<T>, key: T -> K, k: K)
    ensures Group(a + b, key, k) == Group(a, key, k) + Group(b, key, k)
  {
    if b == [] {
      assert a + b == a;
    } else {
      var init := b[..|b| - 1];
      GroupAppend(a, init, key, k);
      assert (a + b)[..|a + b| - 1] == a + init;
    }
  }

  /** Exclude keeps the input order in the same way. */
  lemma {:induction false} ExcludeAppend<T, K>(a: seq<T>, b: seq<T>, key: T -> K, k: K)
    ensures Exclude(a + b, key, k) == Exclude(a, key, k) + Exclude(b, key, k)
  {
    if b == [] {
      assert a + b == a;
    } else {
      var init := b[..|b| - 1];
      ExcludeAppend(a, init, key, k);
      assert (a + b)[..|a + b| - 1] == a + init;
    }
  }

  /** Every element lands either in the group of k or among the rest. */
  lemma {:induction false} GroupExcludeSizes<T, K>(xs: seq<T>, key: T -> K, k: K)
    ensures |Group(xs, key, k)| + |Exclude(xs, key, k)| == |xs|
  {
    if xs != [] {
      GroupExcludeSizes(xs[..|xs| - 1], key, k);
    }
  }

  /** Excluding a key no element has leaves the sequence as it is. */
  lemma {:induction false} ExcludeAbsent<T, K>(xs: seq<T>, key: T -> K, k: K)
    requires forall i :: 0 <= i < |xs| ==> key(xs[i]) != k
    ensures Exclude(xs, key, k) == xs
  {
    if xs != [] {
      ExcludeAbsent(xs[..|xs| - 1], key, k);
      assert xs == xs[..|xs| - 1] + [xs[|xs| - 1]];
    }
  }

  /** The elements whose integer key is one of 0, ..., n - 1, in order. */
  function InRange<T>(xs: seq<T>, key: T -> int, n: int): (g: seq<T>)
    ensures forall i :: 0 <= i < |g| ==> 0 <= key(g[i]) < n && g[i] in xs
  {
    if xs == [] then []
    else
      var init := InRange(xs[..|xs| - 1], key, n);
      if 0 <= key(xs[|xs| - 1]) < n then init + [xs[|xs| - 1]] else init
  }

  /** The combined size of the groups 0, ..., n - 1. */
  function TotalSize<T>(xs: seq<T>, key: T -> int, n: int): nat
  {
    if n <= 0 then 0 else TotalSize(xs, key, n - 1) + |Group(xs, key, n - 1)|
  }

  lemma {:induction false} TotalSizeEmpty<T>(key: T -> int, n: int)
    ensures TotalSize([], key, n) == 0
  {
    if n > 0 {
      TotalSizeEmpty(key, n - 1);
    }
  }

  lemma {:induction false} TotalSizeSnoc<T>(xs: seq<T>, x: T, key: T -> int, n: int)
    ensures TotalSize(xs + [x], key, n) == TotalSize(xs, key, n) + (if 0 <= key(x) < n then 1 else 0)
  {
    if n > 0 {
      TotalSizeSnoc(xs, x, key, n - 1);
      assert (xs + [x])[..|xs + [x]| - 1] == xs;
      assert |Group(xs + [x], key, n - 1)| == |Group(xs, key, n - 1)| + (if key(x) == n - 1 then 1 else 0);
    }
  }

  /** The groups 0, ..., n - 1 together hold exactly the elements whose key is
      in that range: nothing is lost and nothing is counted twice; an element
      keyed outside the range is in no group. */
  lemma {:induction false} TotalSizeIsInRange<T>(xs: seq<T>, key: T -> int, n: int)
    ensures TotalSize(xs, key, n) == |InRange(xs, key, n)|
  {
    if xs == [] {
      TotalSizeEmpty(key, n);
    } else {
      var init := xs[..|xs| - 1];
      TotalSizeIsInRange(init, key, n);
      TotalSizeSnoc(init, xs[|xs| - 1], key, n);
      assert init + [xs[|xs| - 1]] == xs;
      assert |InRange(xs, key, n)| == |InRange(init, key, n)| + (if 0 <= key(xs[|xs| - 1]) < n then 1 else 0);
    }
  }
}
