/**
 * Python's `list.sort(key=lambda x: x.name)` as a value: a stable sort on
 * a string key. Every choice builder of the dashboard sorts its listing
 * this way before mapping it to `(uuid, name)` pairs.
 */
module Sorting {
  import opened Seqs
  import opened Text

  /** Strict string order: `a < b`. */
  predicate StrLt(a: string, b: string)
  {
    !StrLe(b, a)
  }

  /** Every earlier element's key is at most every later element's key. */
  predicate SortedBy<T>(xs: seq<T>, key: T -> string)
  {
    forall i, j :: 0 <= i < j < |xs| ==> StrLe(key(xs[i]), key(xs[j]))
  }

  /** Insert `x` into a sorted list after every element whose key is not
      greater than its own (so equal keys keep their arrival order). */
  function Insert<T>(x: T, s: seq<T>, key: T -> string): seq<T>
    decreases |s|
  {
    if s == [] then [x]
    else if StrLt(key(x), key(s[0])) then [x] + s
    else [s[0]] + Insert(x, s[1..], key)
  }

  /** Insertion sort processing the list front to back. */
  function SortByKey<T>(xs: seq<T>, key: T -> string): seq<T>
    decreases |xs|
  {
    if xs == [] then []
    else Insert(xs[|xs| - 1], SortByKey(xs[..|xs| - 1], key), key)
  }

  /** The test "has key `k`". */
  function KeyIs<T>(key: T -> string, k: string): T -> bool
  {
    y => key(y) == k
  }

  /** The elements carrying key `k`, in list order. */
  function KeyClass<T>(xs: seq<T>, key: T -> string, k: string): seq<T>
  {
    Filter(xs, KeyIs(key, k))
  }

  lemma {:induction false} InsertMultiset<T>(x: T, s: seq<T>, key: T -> string)
    ensures multiset(Insert(x, s, key)) == multiset(s) + multiset{x}
    decreases |s|
  {
    if s != [] && !StrLt(key(x), key(s[0])) {
      InsertMultiset(x, s[1..], key);
      assert s == [s[0]] + s[1..];
    }
  }

  /** Sorting neither drops nor duplicates anything. */
  lemma {:induction false} SortMultiset<T>(xs: seq<T>, key: T -> string)
    ensures multiset(SortByKey(xs, key)) == multiset(xs)
    decreases |xs|
  {
    if xs != [] {
      var init := xs[..|xs| - 1];
      SortMultiset(init, key);
      InsertMultiset(xs[|xs| - 1], SortByKey(init, key), key);
      assert xs == init + [xs[|xs| - 1]];
    }
  }

  lemma {:induction false} InsertSorted<T>(x: T, s: seq<T>, key: T -> string)
    requires SortedBy(s, key)
    ensures SortedBy(Insert(x, s, key), key)
    decreases |s|
  {
    if s == [] {
    } else if StrLt(key(x), key(s[0])) {
      var r := [x] + s;
      StrLeTotal(key(x), key(s[0]));
      forall i, j | 0 <= i < j < |r|
        ensures StrLe(key(r[i]), key(r[j]))
      {
        if i == 0 && j > 1 {
          StrLeTrans(key(x), key(s[0]), key(s[j - 1]));
        }
      }
    } else {
      var t := Insert(x, s[1..], key);
      var r := [s[0]] + t;
      InsertSorted(x, s[1..], key);
      InsertMultiset(x, s[1..], key);
      forall j | 0 <= j < |t|
        ensures StrLe(key(s[0]), key(t[j]))
      {
        assert t[j] in multiset(t);
        if t[j] != x {
          assert t[j] in s[1..];
        }
      }
      forall i, j | 0 <= i < j < |r|
        ensures StrLe(key(r[i]), key(r[j]))
      {
        if i > 0 {
          assert r[i] == t[i - 1] && r[j] == t[j - 1];
        }
      }
    }
  }

  /** The sorted list is ordered by key. */
  lemma {:induction false} SortSorted<T>(xs: seq<T>, key: T -> string)
    ensures SortedBy(SortByKey(xs, key), key)
    decreases |xs|
  {
    if xs != [] {
      SortSorted(xs[..|xs| - 1], key);
      InsertSorted(xs[|xs| - 1], SortByKey(xs[..|xs| - 1], key), key);
    }
  }

  lemma LtLeTrans(a: string, b: string, c: string)
    requires StrLt(a, b) && StrLe(b, c)
    ensures StrLt(a, c)
  {
    if StrLe(c, a) {
      StrLeTrans(b, c, a);
    }
  }

  lemma SortedTail<T>(s: seq<T>, key: T -> string)
    requires SortedBy(s, key) && s != []
    ensures SortedBy(s[1..], key)
  {
    var t := s[1..];
    forall i, j | 0 <= i < j < |t|
      ensures StrLe(key(t[i]), key(t[j]))
    {
      assert t[i] == s[i + 1] && t[j] == s[j + 1];
    }
  }

  /** A key strictly below the head of a sorted list occurs nowhere in it. */
  lemma BelowHeadAbsent<T>(x: T, s: seq<T>, key: T -> string)
    requires SortedBy(s, key) && s != [] && StrLt(key(x), key(s[0]))
    ensures forall j :: 0 <= j < |s| ==> key(s[j]) != key(x)
  {
    forall j | 0 <= j < |s|
      ensures key(s[j]) != key(x)
    {
      StrLeRefl(key(s[j]));
      assert StrLe(key(s[0]), key(s[j]));
      LtLeTrans(key(x), key(s[0]), key(s[j]));
    }
  }

  /** Inserting `x` appends it to the end of its key class. */
  lemma {:induction false} InsertClass<T>(x: T, s: seq<T>, key: T -> string, k: string)
    requires SortedBy(s, key)
    ensures KeyClass(Insert(x, s, key), key, k) == KeyClass(s, key, k) + (if key(x) == k then [x] else [])
    decreases |s|
  {
    var keep := KeyIs(key, k);
    if s == [] {
      FilterSnoc([], x, keep);
      assert [] + [x] == [x];
    } else if StrLt(key(x), key(s[0])) {
      FilterConcat([x], s, keep);
      FilterSnoc([], x, keep);
      assert [] + [x] == [x];
      if key(x) == k {
        BelowHeadAbsent(x, s, key);
        FilterDropsAll(s, keep);
      }
    } else {
      var t := s[1..];
      SortedTail(s, key);
      InsertClass(x, t, key, k);
      FilterConcat([s[0]], Insert(x, t, key), keep);
      FilterConcat([s[0]], t, keep);
      assert s == [s[0]] + t;
    }
  }

  /** Stability: within one key, sorting keeps the original order. */
  lemma {:induction false} SortStable<T>(xs: seq<T>, key: T -> string, k: string)
    ensures KeyClass(SortByKey(xs, key), key, k) == KeyClass(xs, key, k)
    decreases |xs|
  {
    if xs != [] {
      var init := xs[..|xs| - 1];
      var x := xs[|xs| - 1];
      SortStable(init, key, k);
      SortSorted(init, key);
      InsertClass(x, SortByKey(init, key), key, k);
      FilterSnoc(init, x, KeyIs(key, k));
      assert xs == init + [x];
    }
  }

  /** Mapping a sorted list with a function that carries the key along
      gives a list sorted by the carried key. */
  lemma MapSorted<T, U>(xs: seq<T>, key: T -> string, f: T -> U, key2: U -> string)
    requires SortedBy(xs, key)
    requires forall y :: key2(f(y)) == key(y)
    ensures SortedBy(MapSeq(xs, f), key2)
  {
  }

  lemma {:induction false} InsertMapMultiset<T, U>(x: T, s: seq<T>, key: T -> string, f: T -> U)
    ensures multiset(MapSeq(Insert(x, s, key), f)) == multiset(MapSeq(s, f)) + multiset{f(x)}
    decreases |s|
  {
    if s == [] {
      assert MapSeq([x], f) == [f(x)];
    } else if StrLt(key(x), key(s[0])) {
      MapSeqCons(x, s, f);
    } else {
      var t := Insert(x, s[1..], key);
      InsertMapMultiset(x, s[1..], key, f);
      MapSeqCons(s[0], t, f);
      MapSeqCons(s[0], s[1..], f);
      assert s == [s[0]] + s[1..];
      calc {
        multiset(MapSeq(Insert(x, s, key), f));
        multiset([f(s[0])] + MapSeq(t, f));
        multiset{f(s[0])} + multiset(MapSeq(s[1..], f)) + multiset{f(x)};
        multiset(MapSeq(s, f)) + multiset{f(x)};
      }
    }
  }

  /** Whatever a sorted list is mapped to is a permutation of the mapped original. */
  lemma {:induction false} SortMapMultiset<T, U>(xs: seq<T>, key: T -> string, f: T -> U)
    ensures multiset(MapSeq(SortByKey(xs, key), f)) == multiset(MapSeq(xs, f))
    decreases |xs|
  {
    if xs != [] {
      var init := xs[..|xs| - 1];
      SortMapMultiset(init, key, f);
      InsertMapMultiset(xs[|xs| - 1], SortByKey(init, key), key, f);
      MapSeqSnoc(init, xs[|xs| - 1], f);
      assert xs == init + [xs[|xs| - 1]];
    }
  }

  /** Dropping elements from a sorted list leaves it sorted. */
  lemma {:induction false} FilterSorted<T>(xs: seq<T>, key: T -> string, keep: T -> bool)
    requires SortedBy(xs, key)
    ensures SortedBy(Filter(xs, keep), key)
    decreases |xs|
  {
    if xs != [] {
      var init := xs[..|xs| - 1];
      var x := xs[|xs| - 1];
      assert SortedBy(init, key) by {
        forall i, j | 0 <= i < j < |init|
          ensures StrLe(key(init[i]), key(init[j]))
        {
          assert init[i] == xs[i] && init[j] == xs[j];
        }
      }
      FilterSorted(init, key, keep);
      if keep(x) {
        var f := Filter(init, keep);
        FilterIndex(init, keep);
        forall i | 0 <= i < |f|
          ensures StrLe(key(f[i]), key(x))
        {
          assert f[i] in init;
          var m :| 0 <= m < |init| && init[m] == f[i];
          assert xs[m] == init[m];
        }
        var r := f + [x];
        forall i, j | 0 <= i < j < |r|
          ensures StrLe(key(r[i]), key(r[j]))
        {
          if j < |f| {
            assert r[i] == f[i] && r[j] == f[j];
          }
        }
      }
    }
  }
}
