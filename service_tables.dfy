/**
 * The services table (iotronic_ui/iot/services/tables.py): its filter action
 * and its row id.
 */
module ServiceTables {
  import opened Entities
  import opened Seqs
  import opened Text
  import opened NameFilter

  function ServiceName(s: Service): string
  {
    s.name
  }

  /** `ServiceFilterAction.filter`: the services whose lower-cased name
      contains the lower-cased query, in listing order. */
  function ServiceFilter(services: seq<Service>, filterString: string): (r: seq<Service>)
    ensures forall s :: s in r <==> s in services && IsSubstring(Lower(filterString), Lower(s.name))
    ensures IsSubsequence(r, services)
    ensures filterString == [] ==> r == services
  {
    FilterByNameSpec(services, ServiceName, filterString);
    EmptyQueryKeepsAll(services, ServiceName);
    FilterByName(services, ServiceName, filterString)
  }

  /** Filtering the filtered services again with the same query changes nothing. */
  lemma ServiceFilterIdempotent(services: seq<Service>, filterString: string)
    ensures ServiceFilter(ServiceFilter(services, filterString), filterString) == ServiceFilter(services, filterString)
  {
    FilterByNameIdempotent(services, ServiceName, filterString);
  }

  /** `ServicesTable.get_object_id`: a row is identified by the service's uuid. */
  function ServiceObjectId(s: Service): (id: Uuid)
    ensures id == s.uuid
  {
    s.uuid
  }
}
