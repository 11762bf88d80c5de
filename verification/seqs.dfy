/**
 Order-preserving selection over sequences: the two array primitives the
 permission list relies on (`filter` and `some`), and the subsequence relation
 that states what "order-preserving" means.
 */
module Seqs {

  /** The elements of `xs` that satisfy `keep`, in their original order. */
  function Filter<T(==,!new)>(xs: seq<T>, keep: T -> bool): (r: seq<T>)
    ensures |r| <= |xs|
    ensures forall i :: 0 <= i < |r| ==> r[i] in xs && keep(r[i])
    ensures forall i :: 0 <= i < |xs| && keep(xs[i]) ==> xs[i] in r
    ensures forall x :: multiset(r)[x] == if keep(x) then multiset(xs)[x] else 0
  {
    if xs == [] then []
    else
      assert xs == [xs[0]] + xs[1..];
      if keep(xs[0]) then [xs[0]] + Filter(xs[1..], keep)
      else Filter(xs[1..], keep)
  }

  /** True when some element of `xs` satisfies `test`. */
  function Any<T>(xs: seq<T>, test: T -> bool): (b: bool)
    ensures b <==> exists i :: 0 <= i < |xs| && test(xs[i])
  {
    if xs == [] then false
    else if test(xs[0]) then true
    else
      var rest := Any(xs[1..], test);
      assert forall i :: 1 <= i < |xs| ==> xs[i] == xs[1..][i - 1];
      rest
  }

  /** `a` can be obtained from `b` by deleting elements, keeping the order. */
  ghost predicate IsSubsequence<T>(a: seq<T>, b: seq<T>)
    decreases |b|
  {
    if a == [] then true
    else if b == [] then false
    else (a[0] == b[0] && IsSubsequence(a[1..], b[1..])) || IsSubsequence(a, b[1..])
  }

  lemma {:induction false} SubsequenceIsShorter<T>(a: seq<T>, b: seq<T>)
    requires IsSubsequence(a, b)
    ensures |a| <= |b|
    ensures forall i :: 0 <= i < |a| ==> a[i] in b
    decreases |b|
  {
    if a == [] {
    } else if a[0] == b[0] && IsSubsequence(a[1..], b[1..]) {
      SubsequenceIsShorter(a[1..], b[1..]);
      forall i | 0 <= i < |a|
        ensures a[i] in b
      {
        if i > 0 {
          assert a[i] == a[1..][i - 1];
        }
      }
    } else {
      SubsequenceIsShorter(a, b[1..]);
    }
  }

  /** Filtering never reorders: the result is a subsequence of the input. */
  lemma {:induction false} FilterIsSubsequence<T(!new)>(xs: seq<T>, keep: T -> bool)
    ensures IsSubsequence(Filter(xs, keep), xs)
  {
    if xs == [] {
    } else {
      FilterIsSubsequence(xs[1..], keep);
      if keep(xs[0]) {
        var r := Filter(xs, keep);
        assert r[0] == xs[0] && r[1..] == Filter(xs[1..], keep);
      }
    }
  }

  /** A filter whose test holds of every element returns its input unchanged. */
  lemma {:induction false} FilterKeepsAll<T(!new)>(xs: seq<T>, keep: T -> bool)
    requires forall i :: 0 <= i < |xs| ==> keep(xs[i])
    ensures Filter(xs, keep) == xs
  {
    if xs != [] {
      assert forall i :: 0 <= i < |xs[1..]| ==> xs[1..][i] == xs[i + 1];
      FilterKeepsAll(xs[1..], keep);
      assert [xs[0]] + xs[1..] == xs;
    }
  }

  /** Two tests that agree on the elements of `xs` select the same elements. */
  lemma {:induction false} FilterAgree<T(!new)>(xs: seq<T>, f: T -> bool, g: T -> bool)
    requires forall i :: 0 <= i < |xs| ==> f(xs[i]) == g(xs[i])
    ensures Filter(xs, f) == Filter(xs, g)
  {
    if xs != [] {
      assert forall i :: 0 <= i < |xs[1..]| ==> xs[1..][i] == xs[i + 1];
      FilterAgree(xs[1..], f, g);
    }
  }

  /** Two chained filters select what one filter by the conjunction selects. */
  lemma {:induction false} FilterFuse<T(!new)>(xs: seq<T>, f: T -> bool, g: T -> bool)
    ensures Filter(Filter(xs, f), g) == Filter(xs, x => f(x) && g(x))
  {
    if xs != [] {
      FilterFuse(xs[1..], f, g);
      if f(xs[0]) {
        var r := Filter(xs, f);
        assert r[0] == xs[0] && r[1..] == Filter(xs[1..], f);
      }
    }
  }

  /** Two chained filters select what one filter by a test equivalent to the conjunction selects. */
  lemma FilterChainIs<T(!new)>(xs: seq<T>, f: T -> bool, g: T -> bool, both: T -> bool)
    requires forall i :: 0 <= i < |xs| ==> (f(xs[i]) && g(xs[i])) == both(xs[i])
    ensures Filter(Filter(xs, f), g) == Filter(xs, both)
  {
    FilterFuse(xs, f, g);
    FilterAgree(xs, x => f(x) && g(x), both);
  }

  /**
   When `g` implies `h` on the elements of `xs`, the `g`-selection is a
   subsequence of the `h`-selection.
   */
  lemma {:induction false} FilterStrongerIsSubsequence<T(!new)>(xs: seq<T>, g: T -> bool, h: T -> bool)
    requires forall i :: 0 <= i < |xs| ==> g(xs[i]) ==> h(xs[i])
    ensures IsSubsequence(Filter(xs, g), Filter(xs, h))
  {
    FilterFuse(xs, h, g);
    FilterAgree(xs, x => h(x) && g(x), g);
    FilterIsSubsequence(Filter(xs, h), g);
  }
}
