/**
 * The fleets table (iotronic_ui/iot/fleets/tables.py): its filter action and
 * its row id.
 */
module FleetTables {
  import opened Entities
  import opened Seqs
  import opened Text
  import opened NameFilter

  /** The name the filter reads. */
  function FleetName(f: Fleet): string
  {
    f.name
  }

  /** `FleetFilterAction.filter`: the fleets whose lower-cased name contains
      the lower-cased query, in listing order. */
  function FleetFilter(fleets: seq<Fleet>, filterString: string): (r: seq<Fleet>)
    ensures forall f :: f in r <==> f in fleets && IsSubstring(Lower(filterString), Lower(f.name))
    ensures IsSubsequence(r, fleets)
    ensures filterString == [] ==> r == fleets
  {
    FilterByNameSpec(fleets, FleetName, filterString);
    EmptyQueryKeepsAll(fleets, FleetName);
    FilterByName(fleets, FleetName, filterString)
  }

  /** Filtering the filtered fleets again with the same query changes nothing. */
  lemma FleetFilterIdempotent(fleets: seq<Fleet>, filterString: string)
    ensures FleetFilter(FleetFilter(fleets, filterString), filterString) == FleetFilter(fleets, filterString)
  {
    FilterByNameIdempotent(fleets, FleetName, filterString);
  }

  /** `FleetsTable.get_object_id`: a row is identified by the fleet's uuid. */
  function FleetObjectId(f: Fleet): (id: Uuid)
    ensures id == f.uuid
  {
    f.uuid
  }
}
