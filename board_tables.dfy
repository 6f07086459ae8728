/**
 * The boards table (iotronic_ui/iot/boards/tables.py): its filter action and
 * its row id.
 */
module BoardTables {
  import opened Entities
  import opened Seqs
  import opened Text
  import opened NameFilter
  import opened Choices
  import BoardViews

  /** `BoardFilterAction.filter`: the boards whose lower-cased name contains
      the lower-cased query, in listing order. */
  function BoardFilter(boards: seq<Board>, filterString: string): (r: seq<Board>)
    ensures forall b :: b in r <==> b in boards && IsSubstring(Lower(filterString), Lower(b.name))
    ensures IsSubsequence(r, boards)
    ensures filterString == [] ==> r == boards
  {
    FilterByNameSpec(boards, BoardName, filterString);
    EmptyQueryKeepsAll(boards, BoardName);
    FilterByName(boards, BoardName, filterString)
  }

  /** Filtering the filtered boards again with the same query changes nothing. */
  lemma BoardFilterIdempotent(boards: seq<Board>, filterString: string)
    ensures BoardFilter(BoardFilter(boards, filterString), filterString) == BoardFilter(boards, filterString)
  {
    FilterByNameIdempotent(boards, BoardName, filterString);
  }

  /** `BoardsTable.get_object_id`: a row is identified by its board's uuid. */
  function BoardObjectId(b: Board): (id: Uuid)
    ensures id == b.uuid
  {
    b.uuid
  }

  /** The index view's annotation leaves the row id, and the name the filter
      reads, as the service listed them. */
  lemma AnnotationKeepsRowIdentity(b: Board, servicesOf: Uuid -> Option<seq<ServiceDetail>>, fleetNameOf: Uuid -> Option<string>)
    requires BoardViews.LookupsSucceed(b, servicesOf, fleetNameOf)
    ensures BoardObjectId(BoardViews.Annotated(b, servicesOf, fleetNameOf)) == BoardObjectId(b)
    ensures BoardViews.Annotated(b, servicesOf, fleetNameOf).name == b.name
  {
  }
}
