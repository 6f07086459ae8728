/**
 * Sequence vocabulary shared by the model: an order-preserving filter
 * (the shape of every `[x for x in xs if p(x)]` and every
 * "append when the test passes" loop in the dashboard), an element-wise
 * map, and the subsequence relation used to state "order preserved".
 */
module Seqs {

  /** The elements of `xs` that satisfy `keep`, in their original order.
      Defined from the back so that a loop appending at the end follows it. */
  function Filter<T>(xs: seq<T>, keep: T -> bool): seq<T>
    decreases |xs|
  {
    if xs == [] then []
    else Filter(xs[..|xs| - 1], keep) + (if keep(xs[|xs| - 1]) then [xs[|xs| - 1]] else [])
  }

  /** Element-wise map. */
  function MapSeq<T, U>(xs: seq<T>, f: T -> U): seq<U>
  {
    seq(|xs|, i requires 0 <= i < |xs| => f(xs[i]))
  }

  /** `a` can be obtained from `b` by deleting elements. */
  predicate IsSubsequence<T(==)>(a: seq<T>, b: seq<T>)
    decreases |b|
  {
    a == [] ||
    (b != [] &&
     ((a[|a| - 1] == b[|b| - 1] && IsSubsequence(a[..|a| - 1], b[..|b| - 1])) ||
      IsSubsequence(a, b[..|b| - 1])))
  }

  /** One step of Filter on a sequence extended at the end. */
  lemma FilterSnoc<T>(xs: seq<T>, x: T, keep: T -> bool)
    ensures Filter(xs + [x], keep) == Filter(xs, keep) + (if keep(x) then [x] else [])
  {
    assert (xs + [x])[..|xs|] == xs;
  }

  /** Filtering distributes over concatenation. */
  lemma {:induction false} FilterConcat<T>(a: seq<T>, b: seq<T>, keep: T -> bool)
    ensures Filter(a + b, keep) == Filter(a, keep) + Filter(b, keep)
    decreases |b|
  {
    if b == [] {
      assert a + b == a;
    } else {
      var init := b[..|b| - 1];
      var x := b[|b| - 1];
      FilterConcat(a, init, keep);
      assert a + b == (a + init) + [x];
      assert b == init + [x];
      FilterSnoc(a + init, x, keep);
      FilterSnoc(init, x, keep);
    }
  }

  /** The images of the elements are exactly the elements of the mapped sequence. */
  lemma MapSeqMembers<T, U>(xs: seq<T>, f: T -> U)
    ensures forall x :: x in xs ==> f(x) in MapSeq(xs, f)
    ensures forall y :: y in MapSeq(xs, f) ==> exists x :: x in xs && f(x) == y
  {
    var m := MapSeq(xs, f);
    forall x | x in xs
      ensures f(x) in m
    {
      var i :| 0 <= i < |xs| && xs[i] == x;
      assert m[i] == f(x);
    }
    forall y | y in m
      ensures exists x :: x in xs && f(x) == y
    {
      var i :| 0 <= i < |m| && m[i] == y;
      assert xs[i] in xs;
    }
  }

  lemma MapSeqCons<T, U>(x: T, xs: seq<T>, f: T -> U)
    ensures MapSeq([x] + xs, f) == [f(x)] + MapSeq(xs, f)
  {
  }

  lemma MapSeqSnoc<T, U>(xs: seq<T>, x: T, f: T -> U)
    ensures MapSeq(xs + [x], f) == MapSeq(xs, f) + [f(x)]
  {
  }

  lemma {:induction false} SubsequenceExtend<T>(a: seq<T>, b: seq<T>, y: T)
    requires IsSubsequence(a, b)
    ensures IsSubsequence(a, b + [y])
  {
    assert (b + [y])[..|b|] == b;
  }

  lemma {:induction false} SubsequenceRefl<T>(a: seq<T>)
    ensures IsSubsequence(a, a)
    decreases |a|
  {
    if a != [] {
      SubsequenceRefl(a[..|a| - 1]);
    }
  }

  /** A filter keeps the order of what it keeps. */
  lemma {:induction false} FilterIsSubsequence<T>(xs: seq<T>, keep: T -> bool)
    ensures IsSubsequence(Filter(xs, keep), xs)
    decreases |xs|
  {
    if xs != [] {
      var init := xs[..|xs| - 1];
      FilterIsSubsequence(init, keep);
      assert xs == init + [xs[|xs| - 1]];
      if keep(xs[|xs| - 1]) {
        var f := Filter(xs, keep);
        assert f[..|f| - 1] == Filter(init, keep);
      } else {
        assert Filter(xs, keep) == Filter(init, keep);
        SubsequenceExtend(Filter(init, keep), init, xs[|xs| - 1]);
      }
    }
  }

  /** An element survives the filter iff it was there and passes the test. */
  lemma {:induction false} FilterMembers<T>(xs: seq<T>, keep: T -> bool)
    ensures forall y :: y in Filter(xs, keep) <==> y in xs && keep(y)
    decreases |xs|
  {
    if xs != [] {
      var init := xs[..|xs| - 1];
      FilterMembers(init, keep);
      assert xs == init + [xs[|xs| - 1]];
    }
  }

  /** Every element of a filter's result is an input element that passes the test. */
  lemma FilterIndex<T>(xs: seq<T>, keep: T -> bool)
    ensures forall i :: 0 <= i < |Filter(xs, keep)| ==> Filter(xs, keep)[i] in xs && keep(Filter(xs, keep)[i])
  {
    FilterMembers(xs, keep);
    forall i | 0 <= i < |Filter(xs, keep)|
      ensures Filter(xs, keep)[i] in xs && keep(Filter(xs, keep)[i])
    {
      var f := Filter(xs, keep);
      assert f[i] in f;
    }
  }

  /** Multiplicities: a kept element keeps all its copies, a dropped one none. */
  lemma {:induction false} FilterCount<T>(xs: seq<T>, keep: T -> bool)
    ensures forall y :: multiset(Filter(xs, keep))[y] == if keep(y) then multiset(xs)[y] else 0
    decreases |xs|
  {
    if xs != [] {
      var init := xs[..|xs| - 1];
      FilterCount(init, keep);
      assert xs == init + [xs[|xs| - 1]];
      assert multiset(xs) == multiset(init) + multiset{xs[|xs| - 1]};
    }
  }

  /** Filtering twice with the same test is filtering once. */
  lemma {:induction false} FilterIdempotent<T>(xs: seq<T>, keep: T -> bool)
    ensures Filter(Filter(xs, keep), keep) == Filter(xs, keep)
    decreases |xs|
  {
    if xs != [] {
      var init := xs[..|xs| - 1];
      var x := xs[|xs| - 1];
      FilterIdempotent(init, keep);
      assert Filter(xs, keep) == Filter(init, keep) + (if keep(x) then [x] else []);
      if keep(x) {
        FilterSnoc(Filter(init, keep), x, keep);
      } else {
        assert Filter(xs, keep) == Filter(init, keep);
      }
    }
  }

  /** A test every element passes keeps the whole sequence. */
  lemma {:induction false} FilterKeepsAll<T>(xs: seq<T>, keep: T -> bool)
    requires forall i :: 0 <= i < |xs| ==> keep(xs[i])
    ensures Filter(xs, keep) == xs
    decreases |xs|
  {
    if xs != [] {
      var init := xs[..|xs| - 1];
      FilterKeepsAll(init, keep);
      assert xs == init + [xs[|xs| - 1]];
    }
  }

  /** A test no element passes keeps nothing. */
  lemma {:induction false} FilterDropsAll<T>(xs: seq<T>, keep: T -> bool)
    requires forall i :: 0 <= i < |xs| ==> !keep(xs[i])
    ensures Filter(xs, keep) == []
    decreases |xs|
  {
    if xs != [] {
      FilterDropsAll(xs[..|xs| - 1], keep);
    }
  }

  /** The three facts that together pin a filter down. */
  lemma FilterProperties<T>(xs: seq<T>, keep: T -> bool)
    ensures IsSubsequence(Filter(xs, keep), xs)
    ensures forall y :: y in Filter(xs, keep) <==> y in xs && keep(y)
    ensures forall y :: multiset(Filter(xs, keep))[y] == if keep(y) then multiset(xs)[y] else 0
  {
    FilterIsSubsequence(xs, keep);
    FilterMembers(xs, keep);
    FilterCount(xs, keep);
  }

  /** Mapping keeps the subsequence relation. */
  lemma {:induction false} MapSubsequence<T, U>(a: seq<T>, b: seq<T>, f: T -> U)
    requires IsSubsequence(a, b)
    ensures IsSubsequence(MapSeq(a, f), MapSeq(b, f))
    decreases |b|
  {
    if a != [] {
      var ma, mb := MapSeq(a, f), MapSeq(b, f);
      assert MapSeq(b[..|b| - 1], f) == mb[..|mb| - 1];
      if a[|a| - 1] == b[|b| - 1] && IsSubsequence(a[..|a| - 1], b[..|b| - 1]) {
        MapSubsequence(a[..|a| - 1], b[..|b| - 1], f);
        assert MapSeq(a[..|a| - 1], f) == ma[..|ma| - 1];
      } else {
        MapSubsequence(a, b[..|b| - 1], f);
      }
    }
  }

  /** Filtering mapped elements is mapping the filtered elements, when the
      test on an image agrees with a test on its source. */
  lemma {:induction false} FilterMap<T, U>(xs: seq<T>, f: T -> U, keepImage: U -> bool, keep: T -> bool)
    requires forall y :: keepImage(f(y)) == keep(y)
    ensures Filter(MapSeq(xs, f), keepImage) == MapSeq(Filter(xs, keep), f)
    decreases |xs|
  {
    if xs != [] {
      var init := xs[..|xs| - 1];
      var x := xs[|xs| - 1];
      FilterMap(init, f, keepImage, keep);
      assert xs == init + [x];
      MapSeqSnoc(init, x, f);
      FilterSnoc(MapSeq(init, f), f(x), keepImage);
      FilterSnoc(init, x, keep);
      if keep(x) {
        MapSeqSnoc(Filter(init, keep), x, f);
      }
    }
  }
}
