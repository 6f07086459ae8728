/**
 * The webservices table (iotronic_ui/iot/webservices/tables.py): its filter
 * action, which reads the board name the index view writes into each row,
 * and its row id, the board's uuid.
 */
module WebserviceTables {
  import opened Entities
  import opened Seqs
  import opened Text
  import opened NameFilter
  import WebserviceViews

  function RowName(rec: EnabledWebservice): string
  {
    rec.name
  }

  /** `WebserviceFilterAction.filter`: the rows whose lower-cased name
      contains the lower-cased query, in listing order. */
  function WebserviceFilter(rows: seq<EnabledWebservice>, filterString: string): (r: seq<EnabledWebservice>)
    ensures forall w :: w in r <==> w in rows && IsSubstring(Lower(filterString), Lower(w.name))
    ensures IsSubsequence(r, rows)
    ensures filterString == [] ==> r == rows
  {
    FilterByNameSpec(rows, RowName, filterString);
    EmptyQueryKeepsAll(rows, RowName);
    FilterByName(rows, RowName, filterString)
  }

  /** Filtering the filtered rows again with the same query changes nothing. */
  lemma WebserviceFilterIdempotent(rows: seq<EnabledWebservice>, filterString: string)
    ensures WebserviceFilter(WebserviceFilter(rows, filterString), filterString) == WebserviceFilter(rows, filterString)
  {
    FilterByNameIdempotent(rows, RowName, filterString);
  }

  /** `WebservicesTable.get_object_id`: a row is identified by its board's
      uuid, not by the record's own uuid. */
  function WebserviceObjectId(rec: EnabledWebservice): (id: Uuid)
    ensures id == rec.boardUuid
  {
    rec.boardUuid
  }

  /** The index view rewrites a row's uuid (to that of the board's last
      webservice) but not its board uuid, so the row id survives the
      rewrite; the filter then matches on the board's name. */
  lemma AnnotationKeepsRowId(rec: EnabledWebservice, webservices: seq<Webservice>, boardName: string)
    ensures WebserviceObjectId(WebserviceViews.Annotated(rec, webservices, boardName)) == WebserviceObjectId(rec)
    ensures RowName(WebserviceViews.Annotated(rec, webservices, boardName)) == boardName
  {
  }
}
