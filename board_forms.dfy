/**
 * The board forms (iotronic_ui/iot/boards/forms.py): the multi-target
 * `handle` methods (enable and disable services, detach ports, remove
 * plugins), the attach-port form that splits the network key, and the
 * update form with its fleet choices, field-lock rule and patch.
 *
 * `replies[i]` is the outcome of the call for the i-th selected item,
 * `None` when it raised; a `handle` that returns True is `done`.
 */
module BoardForms {
  import opened Entities
  import opened Seqs
  import opened Text
  import opened Sorting
  import opened Choices
  import opened Locks
  import opened IotronicApi
  import opened Dispatch
  import opened BoardViews

  // ---------------------------------------------------------------------
  // Enable, disable, detach: one call per selected key.

  function ServiceActionOn(board: Uuid, action: string): Uuid -> RemoteCall
  {
    service => ServiceAction(board, service, action)
  }

  /** `EnableServiceForm.handle`: one `ServiceEnable` per selected service, in
      order, whatever the earlier ones did; True iff all of them returned. */
  method EnableServiceHandle(board: Uuid, selection: seq<Uuid>, replies: seq<Option<Value>>)
    returns (done: bool, calls: seq<RemoteCall>)
    requires |replies| == |selection|
    ensures |calls| == |selection|
    ensures forall i :: 0 <= i < |selection| ==> calls[i] == ServiceAction(board, selection[i], "ServiceEnable")
    ensures done <==> |selection| > 0 && AllReturned(replies)
  {
    var result;
    result, calls := DirectDispatch(selection, replies, ServiceActionOn(board, "ServiceEnable"));
    done := result.Some?;
  }

  /** `DisableServiceForm.handle`: the same loop with `ServiceDisable`. */
  method DisableServiceHandle(board: Uuid, selection: seq<Uuid>, replies: seq<Option<Value>>)
    returns (done: bool, calls: seq<RemoteCall>)
    requires |replies| == |selection|
    ensures |calls| == |selection|
    ensures forall i :: 0 <= i < |selection| ==> calls[i] == ServiceAction(board, selection[i], "ServiceDisable")
    ensures done <==> |selection| > 0 && AllReturned(replies)
  {
    var result;
    result, calls := DirectDispatch(selection, replies, ServiceActionOn(board, "ServiceDisable"));
    done := result.Some?;
  }

  function DetachFrom(board: Uuid): Uuid -> RemoteCall
  {
    port => DetachPort(board, port)
  }

  /** `DetachPortForm.handle`: one `detach_port` per selected port, in order. */
  method DetachPortHandle(board: Uuid, selection: seq<Uuid>, replies: seq<Option<Value>>)
    returns (done: bool, calls: seq<RemoteCall>)
    requires |replies| == |selection|
    ensures |calls| == |selection|
    ensures forall i :: 0 <= i < |selection| ==> calls[i] == DetachPort(board, selection[i])
    ensures done <==> |selection| > 0 && AllReturned(replies)
  {
    var result;
    result, calls := DirectDispatch(selection, replies, DetachFrom(board));
    done := result.Some?;
  }

  // ---------------------------------------------------------------------
  // Remove plugins: look each selected id up among the choices first.

  function RemoveFrom(board: Uuid): Uuid -> RemoteCall
  {
    plugin => PluginRemove(board, plugin)
  }

  /** `RemovePluginsForm.handle`: a selected id gets a `plugin_remove(board,
      key)` call only when a choice carries it, in selection order; True iff
      every selected id was offered and its call returned. */
  method RemovePluginsHandle(board: Uuid, selection: seq<Uuid>, choices: seq<Choice<Uuid>>, replies: seq<Option<Value>>)
    returns (done: bool, calls: seq<RemoteCall>)
    requires |replies| == |selection|
    ensures |calls| == |ResolvedItems(selection, choices)|
    ensures forall i :: 0 <= i < |calls| ==> calls[i] == PluginRemove(board, ResolvedItems(selection, choices)[i])
    ensures done <==> |selection| > 0 && AllSucceeded(selection, choices, replies)
  {
    var result;
    result, calls := ResolvingDispatch(selection, choices, replies, RemoveFrom(board));
    done := result.Some?;
  }

  // ---------------------------------------------------------------------
  // Attach port: split the chosen key back into network and subnet.

  datatype AttachOutcome =
    | Raised    // the key has no ':' and indexing the split raises out of the form
    | Handled   // the call raised or its reply has no "ip"; the form returns None
    | Attached  // the form returns True

  /** `AttachPortForm.handle`: split the key at every ':'; with fewer than two
      parts the form raises before any call; otherwise it attaches part 0 as
      the network and part 1 as the subnet, and succeeds iff the reply
      carries an "ip". */
  function AttachPortHandle(board: Uuid, key: string, reply: Option<map<string, Value>>): (r: (AttachOutcome, seq<RemoteCall>))
    ensures r.0 == Raised <==> ':' !in key
    ensures r.0 == Raised ==> r.1 == []
    ensures r.0 != Raised ==> |r.1| == 1 && r.1[0].AttachPort? && r.1[0].board == board
    ensures r.0 != Raised ==> r.1[0].network + [':'] + r.1[0].subnet <= key
    ensures r.0 != Raised ==> ':' !in r.1[0].network && ':' !in r.1[0].subnet
    ensures r.0 == Attached <==> ':' in key && reply.Some? && "ip" in reply.value
  {
    var parts := Split(key, ':');
    SplitPieces(key, ':');
    SplitJoinInverse(key, ':');
    if |parts| < 2 then
      (Raised, [])
    else
      var call := AttachPort(board, parts[0], parts[1]);
      if reply.Some? && "ip" in reply.value then (Attached, [call]) else (Handled, [call])
  }

  /** The key the attach-port view builds comes back apart as the network and
      subnet ids it was made of, as long as neither id contains ':'. */
  lemma AttachKeyRoundTrip(board: Uuid, net: Network, subnet: Subnet, reply: Option<map<string, Value>>)
    requires ':' !in net.id && ':' !in subnet.id
    ensures AttachPortHandle(board, NetworkKey(net, subnet), reply).1 == [AttachPort(board, net.id, subnet.id)]
  {
    SplitAfterHead(net.id, ':', subnet.id);
    SplitNoSep(subnet.id, ':');
    assert NetworkKey(net, subnet) == net.id + [':'] + subnet.id;
  }

  // ---------------------------------------------------------------------
  // Update form: fleet choices, lock rule, patch.

  function FleetName(f: Fleet): string
  {
    f.name
  }

  function FleetChoice(f: Fleet): Choice<Option<Uuid>>
  {
    Choice(Some(f.uuid), f.name)
  }

  /** `(None, "-")` first, then the fleets sorted by name. */
  function FleetChoices(fleets: seq<Fleet>): seq<Choice<Option<Uuid>>>
  {
    [Choice(None, "-")] + SortedChoices(fleets, FleetName, FleetChoice)
  }

  /** The fleet loop of `UpdateBoardForm.__init__`. */
  method FleetChoiceList(fleets: seq<Fleet>) returns (fleetList: seq<Choice<Option<Uuid>>>)
    ensures fleetList == FleetChoices(fleets)
  {
    var sorted := SortByKey(fleets, FleetName);
    fleetList := [Choice(None, "-")];
    var i := 0;
    while i < |sorted|
      invariant 0 <= i <= |sorted|
      invariant fleetList == [Choice(None, "-")] + MapSeq(sorted[..i], FleetChoice)
    {
      MapSeqSnoc(sorted[..i], sorted[i], FleetChoice);
      assert sorted[..i + 1] == sorted[..i] + [sorted[i]];
      fleetList := fleetList + [FleetChoice(sorted[i])];
      i := i + 1;
    }
    assert sorted[..i] == sorted;
  }

  /** The "no fleet" entry comes first and only there; after it every fleet
      appears once, ordered by name. */
  lemma FleetChoicesSpec(fleets: seq<Fleet>)
    ensures |FleetChoices(fleets)| == |fleets| + 1
    ensures FleetChoices(fleets)[0] == Choice(None, "-")
    ensures forall i :: 1 <= i < |FleetChoices(fleets)| ==> FleetChoices(fleets)[i].key.Some?
    ensures SortedBy(FleetChoices(fleets)[1..], Caption)
    ensures multiset(FleetChoices(fleets)[1..]) == multiset(MapSeq(fleets, FleetChoice))
  {
    SortedChoicesProperties(fleets, FleetName, FleetChoice);
    assert FleetChoices(fleets)[1..] == SortedChoices(fleets, FleetName, FleetChoice);
  }

  /** The body of `board_update` the update form sends. */
  function BoardPatch(name: string, fleet: Value, mobile: bool): (patch: map<string, Value>)
    ensures patch.Keys == {"name", "fleet", "mobile"}
    ensures patch["name"] == Str(name) && patch["fleet"] == fleet && patch["mobile"] == Bool(mobile)
  {
    map["name" := Str(name), "fleet" := fleet, "mobile" := Bool(mobile)]
  }

  /** The board update form: its fleet select and the widgets the lock rule rewrites. */
  class UpdateBoardForm {
    var fleetChoices: seq<Choice<Option<Uuid>>>
    var fleetInitial: Option<Uuid>
    var nameAttrs: Attrs
    var mobileAttrs: Attrs
    var fleetAttrs: Attrs

    /** `__init__`: fill the fleet select, then lock name, mobile and fleet for
        a user without rights who does not own the board. */
    constructor (fleets: seq<Fleet>, fleetId: Option<Uuid>, policy: Policy, userId: Uuid, owner: Uuid)
      ensures fleetChoices == FleetChoices(fleets)
      ensures fleetInitial == fleetId
      ensures nameAttrs == (if OwnerLock(policy, userId, owner) then ReadOnly else map[])
      ensures mobileAttrs == (if OwnerLock(policy, userId, owner) then Disabled else map[])
      ensures fleetAttrs == (if OwnerLock(policy, userId, owner) then Disabled else Switchable("slug-fleet"))
    {
      nameAttrs := map[];
      mobileAttrs := map[];
      fleetAttrs := Switchable("slug-fleet");
      var fleetList := FleetChoiceList(fleets);
      fleetChoices := fleetList;
      fleetInitial := fleetId;
      if policy.canUpdate {
      } else if policy.isManager || policy.isAdmin {
      } else if userId != owner {
        nameAttrs := ReadOnly;
        mobileAttrs := Disabled;
        fleetAttrs := Disabled;
      }
    }

    /** `handle`: one `board_update` with exactly name, fleet and mobile;
        True when the call returns (`reply` is its outcome), None when it raises. */
    method Handle(uuid: Uuid, name: string, fleet: Value, mobile: bool, reply: Option<Value>)
      returns (done: Option<bool>, call: RemoteCall)
      ensures call.BoardUpdate? && call.board == uuid
      ensures call.patch.Keys == {"name", "fleet", "mobile"}
      ensures call.patch["name"] == Str(name) && call.patch["fleet"] == fleet && call.patch["mobile"] == Bool(mobile)
      ensures done == (if reply.Some? then Some(true) else None)
    {
      call := BoardUpdate(uuid, BoardPatch(name, fleet, mobile));
      if reply.Some? {
        done := Some(true);
      } else {
        done := None;
      }
    }
  }
}
