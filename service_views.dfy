/**
 * The service action view (iotronic_ui/iot/services/views.py): the dialog
 * starts from the service's uuid and name and the online boards as choices.
 */
module ServiceViews {
  import opened Entities
  import opened Seqs
  import opened Sorting
  import opened Choices

  /** What the service action dialog starts from. */
  datatype ServiceInitial = ServiceInitial(uuid: Uuid, name: string, boardList: seq<Choice<Uuid>>)

  /** `ActionView.get_initial`: the service's uuid and name unchanged, and one
      `(uuid, name)` per online board, ordered by name, none dropped or repeated. */
  method ActionGetInitial(service: Service, online: seq<Board>) returns (initial: ServiceInitial)
    ensures initial.uuid == service.uuid && initial.name == service.name
    ensures initial.boardList == SortedChoices(online, BoardName, BoardChoice)
    ensures |initial.boardList| == |online|
    ensures SortedBy(initial.boardList, Caption)
    ensures multiset(initial.boardList) == multiset(MapSeq(online, BoardChoice))
  {
    var boardList := BoardChoices(online);
    initial := ServiceInitial(service.uuid, service.name, boardList);
  }
}
