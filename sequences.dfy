/**
 * The list operations the editor uses on its catalogs and layer lists:
 * Array.prototype.map and Array.prototype.filter, as functions on sequences.
 */
module Sequences {

  /** `xs` is `ys` with some entries dropped and the rest kept in their original order. */
  ghost predicate IsSubsequence<T>(xs: seq<T>, ys: seq<T>)
    decreases |ys|
  {
    || xs == []
    || (&& ys != []
        && (|| (xs[0] == ys[0] && IsSubsequence(xs[1..], ys[1..]))
            || IsSubsequence(xs, ys[1..])))
  }

  /** `xs.map(f)`. */
  function Map<T, U>(xs: seq<T>, f: T -> U): (r: seq<U>)
    ensures |r| == |xs|
    ensures forall i :: 0 <= i < |xs| ==> r[i] == f(xs[i])
  {
    if xs == [] then [] else [f(xs[0])] + Map(xs[1..], f)
  }

  /** Mapping a list with one more entry at its end maps that entry last. */
  lemma {:induction false} MapSnoc<T, U>(xs: seq<T>, x: T, f: T -> U)
    ensures Map(xs + [x], f) == Map(xs, f) + [f(x)]
  {
    var lhs, rhs := Map(xs + [x], f), Map(xs, f) + [f(x)];
    assert |lhs| == |rhs|;
    forall i | 0 <= i < |lhs|
      ensures lhs[i] == rhs[i]
    {
      if i < |xs| {
        assert (xs + [x])[i] == xs[i];
      }
    }
  }

  /** `xs.filter(keep)`: exactly the kept entries, in their original order. */
  function Filter<T(!new)>(xs: seq<T>, keep: T -> bool): (r: seq<T>)
    ensures forall x :: x in r <==> x in xs && keep(x)
    ensures IsSubsequence(r, xs)
    ensures |r| <= |xs|
  {
    if xs == [] then []
    else if keep(xs[0]) then [xs[0]] + Filter(xs[1..], keep)
    else Filter(xs[1..], keep)
  }

  /** The filter keeps every entry that passes as often as it occurs, and no other. */
  lemma {:induction false} FilterCounts<T(!new)>(xs: seq<T>, keep: T -> bool)
    ensures forall x :: multiset(Filter(xs, keep))[x] == if keep(x) then multiset(xs)[x] else 0
  {
    if xs != [] {
      assert xs == [xs[0]] + xs[1..];
      FilterCounts(xs[1..], keep);
    }
  }

  /** Filtering depends only on the verdicts the predicate gives on the entries themselves. */
  lemma {:induction false} FilterAgrees<T(!new)>(xs: seq<T>, keep: T -> bool, keep': T -> bool)
    requires forall x :: x in xs ==> keep(x) == keep'(x)
    ensures Filter(xs, keep) == Filter(xs, keep')
  {
    if xs != [] {
      FilterAgrees(xs[1..], keep, keep');
    }
  }

  /** A filter that keeps every entry returns the list itself. */
  lemma {:induction false} FilterKeepsAll<T(!new)>(xs: seq<T>, keep: T -> bool)
    requires forall i :: 0 <= i < |xs| ==> keep(xs[i])
    ensures Filter(xs, keep) == xs
  {
    if xs != [] {
      assert keep(xs[0]);
      FilterKeepsAll(xs[1..], keep);
      assert [xs[0]] + xs[1..] == xs;
    }
  }

  /** A filter that keeps no entry returns the empty list. */
  lemma {:induction false} FilterDropsAll<T(!new)>(xs: seq<T>, keep: T -> bool)
    requires forall i :: 0 <= i < |xs| ==> !keep(xs[i])
    ensures Filter(xs, keep) == []
  {
    if xs != [] {
      assert !keep(xs[0]);
      FilterDropsAll(xs[1..], keep);
    }
  }

  /** When exactly the first n entries pass, the filter keeps that prefix. */
  lemma {:induction false} FilterPrefix<T(!new)>(xs: seq<T>, n: nat, keep: T -> bool)
    requires n <= |xs|
    requires forall i :: 0 <= i < n ==> keep(xs[i])
    requires forall i :: n <= i < |xs| ==> !keep(xs[i])
    ensures Filter(xs, keep) == xs[..n]
  {
    if n == 0 {
      FilterDropsAll(xs, keep);
    } else {
      var tail := xs[1..];
      assert forall i :: 0 <= i < |tail| ==> tail[i] == xs[i + 1];
      FilterPrefix(tail, n - 1, keep);
      assert xs[..n] == [xs[0]] + tail[..n - 1];
    }
  }
}
