/**
 * The list operations both tables are written with: a `reduce` that adds up
 * one number per element, a `flatMap` that concatenates one list per element,
 * and `splice(index, 1)`. The folds run from the left, as JavaScript's
 * `reduce` does, so they are defined by peeling off the LAST element.
 */
module Lists {

  /**
   * `xs.splice(index, 1)` for a non-negative index: removes the element at
   * `index`; an index at or past the end removes nothing.
   */
  function Splice<T>(xs: seq<T>, index: nat): (r: seq<T>)
    ensures index < |xs| ==> |r| == |xs| - 1 && r[..index] == xs[..index] && r[index..] == xs[index + 1..]
    ensures index < |xs| ==> multiset(r) + multiset{xs[index]} == multiset(xs)
    ensures index >= |xs| ==> r == xs
  {
    if index < |xs| then
      assert xs == xs[..index] + [xs[index]] + xs[index + 1..];
      xs[..index] + xs[index + 1..]
    else
      xs
  }

  /** `xs.findIndex(p)`: the first index whose element satisfies `p`, or -1 when none does. */
  function FindIndex<T>(xs: seq<T>, p: T -> bool): (r: int)
    ensures -1 <= r < |xs|
    ensures r == -1 <==> forall i :: 0 <= i < |xs| ==> !p(xs[i])
    ensures r >= 0 ==> p(xs[r]) && forall i :: 0 <= i < r ==> !p(xs[i])
  {
    if xs == [] then -1
    else if p(xs[0]) then 0
    else
      var r := FindIndex(xs[1..], p);
      if r == -1 then -1 else r + 1
  }

  /** `xs.reduce((sum, x) => sum + f(x), 0)` */
  function SumOf<T>(xs: seq<T>, f: T -> int): int
  {
    if xs == [] then 0 else SumOf(xs[..|xs| - 1], f) + f(xs[|xs| - 1])
  }

  /** `xs.flatMap(f)` */
  function FlatMap<T, U>(xs: seq<T>, f: T -> seq<U>): seq<U>
  {
    if xs == [] then [] else FlatMap(xs[..|xs| - 1], f) + f(xs[|xs| - 1])
  }

  lemma {:induction false} SumOfAppend<T>(a: seq<T>, b: seq<T>, f: T -> int)
    ensures SumOf(a + b, f) == SumOf(a, f) + SumOf(b, f)
  {
    if b == [] {
      assert a + b == a;
    } else {
      assert (a + b)[..|a + b| - 1] == a + b[..|b| - 1];
      SumOfAppend(a, b[..|b| - 1], f);
    }
  }

  lemma {:induction false} FlatMapAppend<T, U>(a: seq<T>, b: seq<T>, f: T -> seq<U>)
    ensures FlatMap(a + b, f) == FlatMap(a, f) + FlatMap(b, f)
  {
    if b == [] {
      assert a + b == a;
    } else {
      assert (a + b)[..|a + b| - 1] == a + b[..|b| - 1];
      FlatMapAppend(a, b[..|b| - 1], f);
    }
  }

  /** The step a left-to-right loop over `xs` takes at index `i`. */
  lemma SumOfPrefix<T>(xs: seq<T>, i: nat, f: T -> int)
    requires i < |xs|
    ensures SumOf(xs[..i + 1], f) == SumOf(xs[..i], f) + f(xs[i])
  {
    assert xs[..i + 1][..i] == xs[..i];
  }

  /** Summing over a flattened list is summing, per element, the sum over its part. */
  lemma {:induction false} SumOfFlatMap<T, U>(xs: seq<T>, f: T -> seq<U>, g: U -> int, h: T -> int)
    requires forall x :: h(x) == SumOf(f(x), g)
    ensures SumOf(FlatMap(xs, f), g) == SumOf(xs, h)
  {
    if xs != [] {
      var init := xs[..|xs| - 1];
      SumOfFlatMap(init, f, g, h);
      SumOfAppend(FlatMap(init, f), f(xs[|xs| - 1]), g);
    }
  }

  /** The length of a flattened list is the sum of the lengths of its parts. */
  lemma {:induction false} FlatMapLength<T, U>(xs: seq<T>, f: T -> seq<U>, h: T -> int)
    requires forall x :: h(x) == |f(x)|
    ensures |FlatMap(xs, f)| == SumOf(xs, h)
  {
    if xs != [] {
      FlatMapLength(xs[..|xs| - 1], f, h);
    }
  }

  /** Two per-element measures that agree on every element have equal sums. */
  lemma {:induction false} SumOfAgree<T>(xs: seq<T>, f: T -> int, g: T -> int)
    requires forall i :: 0 <= i < |xs| ==> f(xs[i]) == g(xs[i])
    ensures SumOf(xs, f) == SumOf(xs, g)
  {
    if xs != [] {
      SumOfAgree(xs[..|xs| - 1], f, g);
    }
  }

  /** The sum over `a + [x] + b`, split around the middle element. */
  lemma SumOfSplit<T>(a: seq<T>, x: T, b: seq<T>, f: T -> int)
    ensures SumOf(a + [x] + b, f) == SumOf(a, f) + f(x) + SumOf(b, f)
  {
    SumOfAppend(a + [x], b, f);
    SumOfAppend(a, [x], f);
    assert [x][..0] == [];
  }

  /** Replacing one element changes the sum by the difference of the two measures. */
  lemma SumOfUpdate<T>(xs: seq<T>, i: nat, x: T, f: T -> int)
    requires i < |xs|
    ensures SumOf(xs[i := x], f) == SumOf(xs, f) - f(xs[i]) + f(x)
  {
    var before, after := xs[..i], xs[i + 1..];
    assert xs == before + [xs[i]] + after;
    assert xs[i := x] == before + [x] + after;
    SumOfSplit(before, xs[i], after, f);
    SumOfSplit(before, x, after, f);
  }

  /** Removing one element takes its measure off the sum. */
  lemma SumOfRemove<T>(xs: seq<T>, i: nat, f: T -> int)
    requires i < |xs|
    ensures SumOf(xs[..i] + xs[i + 1..], f) == SumOf(xs, f) - f(xs[i])
  {
    SplitAt(xs, i);
    SumOfDropMiddle(xs[..i], xs[i], xs[i + 1..], f);
  }

  lemma SplitAt<T>(xs: seq<T>, i: nat)
    requires i < |xs|
    ensures xs == xs[..i] + [xs[i]] + xs[i + 1..]
  {
  }

  lemma SumOfDropMiddle<T>(a: seq<T>, x: T, b: seq<T>, f: T -> int)
    ensures SumOf(a + b, f) == SumOf(a + [x] + b, f) - f(x)
  {
    SumOfSplit(a, x, b, f);
    SumOfAppend(a, b, f);
  }

  /** A sum of measures that are all at least one is at least the length. */
  lemma {:induction false} SumOfAtLeastLength<T>(xs: seq<T>, f: T -> int)
    requires forall i :: 0 <= i < |xs| ==> f(xs[i]) >= 1
    ensures SumOf(xs, f) >= |xs|
  {
    if xs != [] {
      SumOfAtLeastLength(xs[..|xs| - 1], f);
    }
  }
}
