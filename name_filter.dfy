/**
 * The filter action every table of the dashboard shares: keep the rows
 * whose lower-cased name contains the lower-cased query, in their order.
 */
module NameFilter {
  import opened Seqs
  import opened Text

  /** The row test: the lower-cased query occurs in the lower-cased name. */
  function NameMatches<T>(nameOf: T -> string, filterString: string): T -> bool
  {
    row => Contains(Lower(nameOf(row)), Lower(filterString))
  }

  /** The list comprehension of the filter actions. */
  function FilterByName<T>(rows: seq<T>, nameOf: T -> string, filterString: string): seq<T>
  {
    Filter(rows, NameMatches(nameOf, filterString))
  }

  /** A row is kept iff the lower-cased query is a substring of its
      lower-cased name, and the kept rows keep their order. */
  lemma FilterByNameSpec<T>(rows: seq<T>, nameOf: T -> string, filterString: string)
    ensures forall r :: r in FilterByName(rows, nameOf, filterString) <==>
              r in rows && IsSubstring(Lower(filterString), Lower(nameOf(r)))
    ensures IsSubsequence(FilterByName(rows, nameOf, filterString), rows)
  {
    FilterMembers(rows, NameMatches(nameOf, filterString));
    FilterIsSubsequence(rows, NameMatches(nameOf, filterString));
    forall r
      ensures NameMatches(nameOf, filterString)(r) <==> IsSubstring(Lower(filterString), Lower(nameOf(r)))
    {
      ContainsIsSubstring(Lower(nameOf(r)), Lower(filterString));
    }
  }

  /** The empty query keeps every row. */
  lemma EmptyQueryKeepsAll<T>(rows: seq<T>, nameOf: T -> string)
    ensures FilterByName(rows, nameOf, []) == rows
  {
    forall r
      ensures NameMatches(nameOf, [])(r)
    {
      EmptyContained(Lower(nameOf(r)));
    }
    FilterKeepsAll(rows, NameMatches(nameOf, []));
  }

  /** Filtering again with the same query changes nothing. */
  lemma FilterByNameIdempotent<T>(rows: seq<T>, nameOf: T -> string, filterString: string)
    ensures FilterByName(FilterByName(rows, nameOf, filterString), nameOf, filterString) == FilterByName(rows, nameOf, filterString)
  {
    FilterIdempotent(rows, NameMatches(nameOf, filterString));
  }
}
