/**
 * The field-lock rules of the update forms. A form consults the policy in
 * order: the resource's own update right, then the project manager and
 * admin roles; a user with neither may still edit what they own. Otherwise
 * the form makes its fields readonly or disabled.
 */
module Locks {
  import opened Entities

  /** The rule of the board, service and fleet update forms: the update right
      lets everything through, so do the manager and admin roles, and any
      other user is locked out of what they do not own. */
  function OwnerLock(policy: Policy, userId: Uuid, owner: Uuid): (locked: bool)
    ensures policy.canUpdate ==> !locked
    ensures policy.isManager || policy.isAdmin ==> !locked
    ensures userId == owner ==> !locked
    ensures !policy.canUpdate && !policy.isManager && !policy.isAdmin && userId != owner ==> locked
  {
    if policy.canUpdate then false
    else if policy.isManager || policy.isAdmin then false
    else userId != owner
  }

  /** The rule of the plugin update form: the plugin update right lets
      everything through; the project-plugins right and no right at all
      both lock a user out of the plugins they do not own. */
  function PluginLock(canUpdatePlugins: bool, canUpdateProjectPlugins: bool, userId: Uuid, owner: Uuid): (locked: bool)
    ensures locked <==> !canUpdatePlugins && userId != owner
  {
    if canUpdatePlugins then false
    else if canUpdateProjectPlugins then userId != owner
    else userId != owner
  }
}
