/**
 * The service forms (iotronic_ui/iot/services/forms.py): the action form,
 * which runs one action on every selected board, and the update form (its
 * class is named `UpdateBoardForm` in the source) with its lock rule and patch.
 */
module ServiceForms {
  import opened Entities
  import opened Seqs
  import opened Locks
  import opened IotronicApi
  import opened Dispatch

  /** The three actions the form's select offers, in display order. */
  const ActionChoices: seq<Choice<string>> :=
    [Choice("ServiceEnable", "Enable"), Choice("ServiceDisable", "Disable"), Choice("ServiceRestore", "Restore")]

  /** A valid action is the key of one of the offered actions. */
  predicate IsServiceAction(action: string)
  {
    exists k :: 0 <= k < |ActionChoices| && ActionChoices[k].key == action
  }

  /** The offered actions are exactly enable, disable and restore. */
  lemma ServiceActions(action: string)
    ensures IsServiceAction(action) <==> action in {"ServiceEnable", "ServiceDisable", "ServiceRestore"}
  {
    if action == "ServiceEnable" {
      assert ActionChoices[0].key == action;
    } else if action == "ServiceDisable" {
      assert ActionChoices[1].key == action;
    } else if action == "ServiceRestore" {
      assert ActionChoices[2].key == action;
    }
  }

  function ServiceActionOnBoard(service: Uuid, action: string): Uuid -> RemoteCall
  {
    board => ServiceAction(board, service, action)
  }

  /** `ServiceActionForm.handle`: one `service_action(board, service, action)`
      per selected board found among the choices, in selection order; a
      failure does not stop the others. The form returns the last call's
      reply iff every selected board was found and its call returned, and
      None otherwise. The action select is validated before `handle` runs,
      so the action is one of the three offered. */
  method ActionHandle(service: Uuid, action: string, selection: seq<Uuid>, choices: seq<Choice<Uuid>>, replies: seq<Option<Value>>)
    returns (result: Option<Value>, calls: seq<RemoteCall>)
    requires |replies| == |selection|
    requires IsServiceAction(action)
    ensures |calls| == |ResolvedItems(selection, choices)|
    ensures forall i :: 0 <= i < |calls| ==> calls[i] == ServiceAction(ResolvedItems(selection, choices)[i], service, action)
    ensures result.Some? <==> |selection| > 0 && AllSucceeded(selection, choices, replies)
    ensures result.Some? ==> result == replies[|selection| - 1]
    ensures forall i :: 0 <= i < |calls| ==> calls[i].action in {"ServiceEnable", "ServiceDisable", "ServiceRestore"}
  {
    result, calls := ResolvingDispatch(selection, choices, replies, ServiceActionOnBoard(service, action));
    ServiceActions(action);
  }

  /** The body of `service_update` the update form sends. */
  function ServicePatch(name: string, port: int, protocol: string): (patch: map<string, Value>)
    ensures patch.Keys == {"name", "port", "protocol"}
    ensures patch["name"] == Str(name) && patch["port"] == Int(port) && patch["protocol"] == Str(protocol)
  {
    map["name" := Str(name), "port" := Int(port), "protocol" := Str(protocol)]
  }

  /** The service update form: the widgets its lock rule rewrites. */
  class UpdateServiceForm {
    var nameAttrs: Attrs
    var portAttrs: Attrs
    var protocolAttrs: Attrs

    /** `__init__`: a user without the service update right, not a manager
        or admin, who does not own the service sees name, port and protocol
        readonly. */
    constructor (policy: Policy, userId: Uuid, owner: Uuid)
      ensures nameAttrs == (if OwnerLock(policy, userId, owner) then ReadOnly else map[])
      ensures portAttrs == (if OwnerLock(policy, userId, owner) then ReadOnly else map[])
      ensures protocolAttrs == (if OwnerLock(policy, userId, owner) then ReadOnly else Switchable("slug-protocol"))
    {
      nameAttrs := map[];
      portAttrs := map[];
      protocolAttrs := Switchable("slug-protocol");
      if policy.canUpdate {
      } else if policy.isManager || policy.isAdmin {
      } else if userId != owner {
        nameAttrs := ReadOnly;
        portAttrs := ReadOnly;
        protocolAttrs := ReadOnly;
      }
    }

    /** `handle`: one `service_update` with exactly name, port and protocol;
        True when the call returns (`reply` is its outcome), None when it raises. */
    method Handle(uuid: Uuid, name: string, port: int, protocol: string, reply: Option<Value>)
      returns (done: Option<bool>, call: RemoteCall)
      ensures call.ServiceUpdate? && call.service == uuid
      ensures call.patch.Keys == {"name", "port", "protocol"}
      ensures call.patch["name"] == Str(name) && call.patch["port"] == Int(port) && call.patch["protocol"] == Str(protocol)
      ensures done == (if reply.Some? then Some(true) else None)
    {
      call := ServiceUpdate(uuid, ServicePatch(name, port, protocol));
      if reply.Some? {
        done := Some(true);
      } else {
        done := None;
      }
    }
  }
}
