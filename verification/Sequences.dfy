/** Array.prototype.filter, Array.prototype.sort and first-occurrence dedupe, with the facts the pipeline needs about them. */
module Sequences {

  /** The elements of `xs` that pass `keep`, in order. */
  function Filter<T>(xs: seq<T>, keep: T -> bool): (r: seq<T>)
    ensures forall x | x in r :: x in xs && keep(x)
    ensures forall x | x in xs && keep(x) :: x in r
    ensures |r| <= |xs|
  {
    if xs == [] then []
    else
      var init, last := xs[..|xs| - 1], xs[|xs| - 1];
      assert xs == init + [last];
      Filter(init, keep) + if keep(last) then [last] else []
  }

  lemma FilterAppend<T>(xs: seq<T>, x: T, keep: T -> bool)
    ensures Filter(xs + [x], keep) == Filter(xs, keep) + if keep(x) then [x] else []
  {
    assert (xs + [x])[..|xs|] == xs;
  }

  lemma {:induction false} FilterSame<T>(xs: seq<T>, f: T -> bool, g: T -> bool)
    requires forall x :: x in xs ==> f(x) == g(x)
    ensures Filter(xs, f) == Filter(xs, g)
  {
    if xs != [] {
      var init := xs[..|xs| - 1];
      assert xs == init + [xs[|xs| - 1]];
      FilterSame(init, f, g);
    }
  }

  lemma {:induction false} FilterAll<T>(xs: seq<T>, keep: T -> bool)
    requires forall x :: x in xs ==> keep(x)
    ensures Filter(xs, keep) == xs
  {
    if xs != [] {
      var init := xs[..|xs| - 1];
      assert xs == init + [xs[|xs| - 1]];
      FilterAll(init, keep);
    }
  }

  predicate Distinct<T(==)>(xs: seq<T>) {
    forall i, j :: 0 <= i < j < |xs| ==> xs[i] != xs[j]
  }

  predicate Ascending<T>(xs: seq<T>, rank: T -> int) {
    forall i, j :: 0 <= i < j < |xs| ==> rank(xs[i]) < rank(xs[j])
  }

  function InsertBy<T>(x: T, xs: seq<T>, rank: T -> int): (r: seq<T>)
    ensures |r| == |xs| + 1
    ensures x in r && forall y | y in xs :: y in r
    ensures forall y | y in r :: y == x || y in xs
  {
    if xs == [] then [x]
    else if rank(x) < rank(xs[0]) then [x] + xs
    else
      assert xs == [xs[0]] + xs[1..];
      [xs[0]] + InsertBy(x, xs[1..], rank)
  }

  /** A sort by an integer rank; the callers only sort elements of pairwise distinct rank. */
  function SortBy<T>(xs: seq<T>, rank: T -> int): (r: seq<T>)
    ensures |r| == |xs|
    ensures (forall y | y in r :: y in xs) && forall y | y in xs :: y in r
  {
    if xs == [] then []
    else
      assert xs == [xs[0]] + xs[1..];
      InsertBy(xs[0], SortBy(xs[1..], rank), rank)
  }

  lemma {:induction false} InsertAscending<T>(x: T, xs: seq<T>, rank: T -> int)
    requires Ascending(xs, rank)
    requires forall y :: y in xs ==> rank(y) != rank(x)
    ensures Ascending(InsertBy(x, xs, rank), rank)
  {
    if xs != [] && rank(x) >= rank(xs[0]) {
      InsertAscending(x, xs[1..], rank);
      var r := InsertBy(x, xs[1..], rank);
      forall k | 0 <= k < |r| ensures rank(xs[0]) < rank(r[k]) {
        assert r[k] in r;
      }
    }
  }

  lemma {:induction false} SortAscending<T>(xs: seq<T>, rank: T -> int)
    requires forall i, j :: 0 <= i < j < |xs| ==> rank(xs[i]) != rank(xs[j])
    ensures Ascending(SortBy(xs, rank), rank)
  {
    if xs != [] {
      SortAscending(xs[1..], rank);
      InsertAscending(xs[0], SortBy(xs[1..], rank), rank);
    }
  }

  /** Two ascending sequences with the same elements are the same sequence. */
  lemma {:induction false} AscendingUnique<T>(a: seq<T>, b: seq<T>, rank: T -> int)
    requires Ascending(a, rank) && Ascending(b, rank)
    requires forall x :: x in a <==> x in b
    ensures a == b
  {
    assert (a == [] || a[0] in b) && (b == [] || b[0] in a);
    if a != [] && b != [] {
      assert a[0] in b && b[0] in a;
      assert a[0] == b[0];
      var a', b' := a[1..], b[1..];
      forall x ensures x in a' <==> x in b' {
        if x in a' { assert x in a; assert x != a[0]; }
        if x in b' { assert x in b; assert x != b[0]; }
      }
      AscendingUnique(a', b', rank);
    }
  }

  lemma {:induction false} FilterAscending<T>(xs: seq<T>, keep: T -> bool, rank: T -> int)
    requires Ascending(xs, rank)
    ensures Ascending(Filter(xs, keep), rank)
  {
    if xs != [] {
      var init, last := xs[..|xs| - 1], xs[|xs| - 1];
      FilterAscending(init, keep, rank);
      var r := Filter(init, keep);
      forall k | 0 <= k < |r| ensures rank(r[k]) < rank(last) {
        assert r[k] in r;
        assert r[k] in init;
      }
    }
  }

  /** The distinct elements of `xs` in the order of their first occurrence. */
  function FirstOccurrences<T(==)>(xs: seq<T>): (r: seq<T>)
    ensures (forall x | x in r :: x in xs) && forall x | x in xs :: x in r
    ensures Distinct(r)
  {
    if xs == [] then []
    else
      var init, last := xs[..|xs| - 1], xs[|xs| - 1];
      assert xs == init + [last];
      var r := FirstOccurrences(init);
      if last in r then r else r + [last]
  }

  lemma FirstOccurrencesAppend<T>(xs: seq<T>, x: T)
    ensures FirstOccurrences(xs + [x]) ==
            FirstOccurrences(xs) + if x in xs then [] else [x]
  {
    assert (xs + [x])[..|xs|] == xs;
  }

  function Flatten<T>(xss: seq<seq<T>>): seq<T> {
    if xss == [] then [] else Flatten(xss[..|xss| - 1]) + xss[|xss| - 1]
  }

  lemma {:induction false} FlattenMember<T>(xss: seq<seq<T>>, x: T)
    ensures x in Flatten(xss) <==> exists i :: 0 <= i < |xss| && x in xss[i]
  {
    if xss != [] {
      FlattenMember(xss[..|xss| - 1], x);
    }
  }

  lemma {:induction false} FlattenSplit<T>(xss: seq<seq<T>>, k: nat)
    requires k <= |xss|
    ensures Flatten(xss) == Flatten(xss[..k]) + Flatten(xss[k..])
    decreases |xss| - k
  {
    if k == |xss| {
      assert xss[..k] == xss && xss[k..] == [];
    } else if |xss| > 0 {
      var init := xss[..|xss| - 1];
      assert init[..k] == xss[..k] && init[k..] == xss[k..][..|xss| - k - 1];
      FlattenSplit(init, k);
    }
  }

  lemma DistinctFirst<T>(x: T, xs: seq<T>)
    requires Distinct(xs) && forall y | y in xs :: y != x
    ensures Distinct([x] + xs)
  {
    forall i, j | 0 <= i < j < |[x] + xs| ensures ([x] + xs)[i] != ([x] + xs)[j] { assert xs[j - 1] in xs; }
  }

  lemma DistinctAppend<T>(a: seq<T>, b: seq<T>)
    requires Distinct(a) && Distinct(b) && forall x | x in a :: x !in b
    ensures Distinct(a + b)
  {
    forall i, j | 0 <= i < j < |a + b| ensures (a + b)[i] != (a + b)[j] {
      if i < |a| <= j { assert a[i] in a && b[j - |a|] in b; }
    }
  }

  lemma Regroup<T>(a: seq<T>, b: seq<T>, c: seq<T>)
    ensures a + (b + c) == a + b + c
  {
  }
}
