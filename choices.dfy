/**
 * The choice-list builders of the views: sort a listing by name, then
 * append one `(uuid, name)` pair per element. The plugin views (inject,
 * start, stop, call, remove), the service action view, the remove-plugins
 * view and the unexpose view all build their lists this way.
 */
module Choices {
  import opened Entities
  import opened Seqs
  import opened Text
  import opened Sorting

  function Caption<K>(c: Choice<K>): string
  {
    c.caption
  }

  /** The list the builders produce: the listing sorted by name, mapped to choices. */
  function SortedChoices<T, K>(xs: seq<T>, nameOf: T -> string, toChoice: T -> Choice<K>): seq<Choice<K>>
  {
    MapSeq(SortByKey(xs, nameOf), toChoice)
  }

  /** The append loop of the builders: one choice per element, in order. */
  method ChoicesOf<T, K>(xs: seq<T>, toChoice: T -> Choice<K>) returns (choices: seq<Choice<K>>)
    ensures choices == MapSeq(xs, toChoice)
  {
    choices := [];
    var i := 0;
    while i < |xs|
      invariant 0 <= i <= |xs|
      invariant choices == MapSeq(xs[..i], toChoice)
    {
      MapSeqSnoc(xs[..i], xs[i], toChoice);
      assert xs[..i + 1] == xs[..i] + [xs[i]];
      choices := choices + [toChoice(xs[i])];
      i := i + 1;
    }
    assert xs[..i] == xs;
  }

  /** Sort by name in place, then append the pairs. */
  method SortedChoiceList<T, K>(xs: seq<T>, nameOf: T -> string, toChoice: T -> Choice<K>)
    returns (choices: seq<Choice<K>>)
    ensures choices == SortedChoices(xs, nameOf, toChoice)
  {
    var sorted := SortByKey(xs, nameOf);
    choices := ChoicesOf(sorted, toChoice);
  }

  /** When a choice's caption is its element's name, the list is ordered by
      caption, is a permutation of the element-wise choices (nothing dropped,
      nothing repeated), and elements with the same name keep their listing order. */
  lemma SortedChoicesProperties<T, K>(xs: seq<T>, nameOf: T -> string, toChoice: T -> Choice<K>)
    requires forall y :: toChoice(y).caption == nameOf(y)
    ensures |SortedChoices(xs, nameOf, toChoice)| == |xs|
    ensures SortedBy(SortedChoices(xs, nameOf, toChoice), Caption)
    ensures multiset(SortedChoices(xs, nameOf, toChoice)) == multiset(MapSeq(xs, toChoice))
    ensures forall k :: KeyClass(SortedChoices(xs, nameOf, toChoice), Caption, k) == MapSeq(KeyClass(xs, nameOf, k), toChoice)
  {
    var sorted := SortByKey(xs, nameOf);
    SortMultiset(xs, nameOf);
    assert |sorted| == |multiset(sorted)| == |multiset(xs)| == |xs|;
    SortSorted(xs, nameOf);
    MapSorted(sorted, nameOf, toChoice, Caption);
    SortMapMultiset(xs, nameOf, toChoice);
    forall k
      ensures KeyClass(SortedChoices(xs, nameOf, toChoice), Caption, k) == MapSeq(KeyClass(xs, nameOf, k), toChoice)
    {
      FilterMap(sorted, toChoice, KeyIs(Caption, k), KeyIs(nameOf, k));
      SortStable(xs, nameOf, k);
    }
  }

  function BoardName(b: Board): string
  {
    b.name
  }

  function BoardChoice(b: Board): Choice<Uuid>
  {
    Choice(b.uuid, b.name)
  }

  /** The board list of the plugin views and of the service action view:
      the online boards sorted by name, as `(uuid, name)` pairs. */
  method BoardChoices(boards: seq<Board>) returns (choices: seq<Choice<Uuid>>)
    ensures choices == SortedChoices(boards, BoardName, BoardChoice)
    ensures |choices| == |boards|
    ensures SortedBy(choices, Caption)
    ensures multiset(choices) == multiset(MapSeq(boards, BoardChoice))
  {
    choices := SortedChoiceList(boards, BoardName, BoardChoice);
    SortedChoicesProperties(boards, BoardName, BoardChoice);
  }

  /** A board is offered iff it was listed, under its own uuid and name. */
  lemma BoardOfferedIffListed(boards: seq<Board>, b: Board)
    ensures BoardChoice(b) in SortedChoices(boards, BoardName, BoardChoice) <==> BoardChoice(b) in MapSeq(boards, BoardChoice)
  {
    SortedChoicesProperties(boards, BoardName, BoardChoice);
    assert BoardChoice(b) in multiset(SortedChoices(boards, BoardName, BoardChoice)) <==> BoardChoice(b) in multiset(MapSeq(boards, BoardChoice));
  }
}
