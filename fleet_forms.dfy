/**
 * The fleet forms (iotronic_ui/iot/fleets/forms.py): the create form's call
 * and the update form with its lock rule and patch.
 */
module FleetForms {
  import opened Entities
  import opened Locks
  import opened IotronicApi

  /** `CreateFleetForm.handle`: `fleet_create` with the name and the description as entered. */
  function CreateFleetCall(name: string, description: string): (c: RemoteCall)
    ensures c.FleetCreate? && c.name == name && c.description == description
  {
    FleetCreate(name, description)
  }

  /** The body of `fleet_update` the update form sends. */
  function FleetPatch(name: string, description: string): (patch: map<string, Value>)
    ensures patch.Keys == {"name", "description"}
    ensures patch["name"] == Str(name) && patch["description"] == Str(description)
  {
    map["name" := Str(name), "description" := Str(description)]
  }

  /** The fleet update form: the widgets its lock rule rewrites. */
  class UpdateFleetForm {
    var nameAttrs: Attrs
    var descriptionAttrs: Attrs

    /** `__init__`: only a user without the fleet update right, not a manager
        or admin, who does not own the fleet sees name and description readonly. */
    constructor (policy: Policy, userId: Uuid, owner: Uuid)
      ensures nameAttrs == (if OwnerLock(policy, userId, owner) then ReadOnly else map[])
      ensures descriptionAttrs == (if OwnerLock(policy, userId, owner) then ReadOnly else Switchable("slug-description"))
    {
      nameAttrs := map[];
      descriptionAttrs := Switchable("slug-description");
      if policy.canUpdate {
      } else if policy.isManager || policy.isAdmin {
      } else if userId != owner {
        nameAttrs := ReadOnly;
        descriptionAttrs := ReadOnly;
      }
    }

    /** `handle`: one `fleet_update` with exactly name and description;
        True when the call returns (`reply` is its outcome), None when it raises. */
    method Handle(uuid: Uuid, name: string, description: string, reply: Option<Value>)
      returns (done: Option<bool>, call: RemoteCall)
      ensures call.FleetUpdate? && call.fleet == uuid
      ensures call.patch.Keys == {"name", "description"}
      ensures call.patch["name"] == Str(name) && call.patch["description"] == Str(description)
      ensures done == (if reply.Some? then Some(true) else None)
    {
      call := FleetUpdate(uuid, FleetPatch(name, description));
      if reply.Some? {
        done := Some(true);
      } else {
        done := None;
      }
    }
  }
}
