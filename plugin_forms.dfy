/**
 * The plugin forms (iotronic_ui/iot/plugins/forms.py): the defaulting of
 * the parameters and of the delay, the create form's request, the five
 * multi-target forms that act on the selected boards, and the update form's
 * lock rule.
 *
 * Each multi-target `handle` looks every selected board up among the
 * field's choices (the board list the view built), stopping at the first
 * match, and makes one call per board found. `replies[i]` is the outcome of
 * the call for the i-th selected board, `None` when it raised.
 */
module PluginForms {
  import opened Entities
  import opened Seqs
  import opened Locks
  import opened IotronicApi
  import opened Dispatch

  /** The parameters text as sent: an empty text becomes the empty object;
      otherwise it is what the JSON decoder made of it (`parsed`). */
  function Parameters(text: string, parsed: Value): (v: Value)
    ensures text == [] ==> v == Dict(map[])
    ensures text != [] ==> v == parsed
  {
    if text == [] then Dict(map[]) else parsed
  }

  /** The stop form's delay: no delay or a zero delay becomes the empty
      object, any other delay `{"delay": d}`. */
  function StopDelay(delay: Option<int>): (v: Value)
    ensures delay.None? || delay == Some(0) ==> v == Dict(map[])
    ensures delay.Some? && delay.value != 0 ==> v.Dict? && v.entries.Keys == {"delay"} && v.entries["delay"] == Int(delay.value)
  {
    if delay.None? || delay.value == 0 then Dict(map[]) else Dict(map["delay" := Int(delay.value)])
  }

  /** `CreatePluginForm.handle`: one `plugin_create` with the five fields,
      the parameters defaulted. */
  function CreatePluginCall(name: string, public: bool, isCallable: bool, code: string, parametersText: string, parsed: Value): (c: RemoteCall)
    ensures c.PluginCreate?
    ensures c.params.Keys == {"name", "public", "callable", "code", "parameters"}
    ensures c.params["name"] == Str(name) && c.params["code"] == Str(code)
    ensures c.params["public"] == Bool(public) && c.params["callable"] == Bool(isCallable)
    ensures parametersText == [] ==> c.params["parameters"] == Dict(map[])
    ensures parametersText != [] ==> c.params["parameters"] == parsed
  {
    PluginCreate(PluginCreateParams(name, public, isCallable, code, Parameters(parametersText, parsed)))
  }

  function InjectOn(plugin: Uuid, onboot: bool): Uuid -> RemoteCall
  {
    board => PluginInject(board, plugin, onboot)
  }

  function ActionOn(plugin: Uuid, action: string, actionParams: Value): Uuid -> RemoteCall
  {
    board => PluginAction(board, plugin, action, actionParams)
  }

  function RemoveOn(plugin: Uuid): Uuid -> RemoteCall
  {
    board => PluginRemove(board, plugin)
  }

  /** `InjectPluginForm.handle`: one `plugin_inject(board, plugin, onboot)`
      per selected board found among the choices, in selection order; True
      iff every selected board was found and its call returned. */
  method InjectHandle(plugin: Uuid, onboot: bool, selection: seq<Uuid>, choices: seq<Choice<Uuid>>, replies: seq<Option<Value>>)
    returns (done: bool, calls: seq<RemoteCall>)
    requires |replies| == |selection|
    ensures |calls| == |ResolvedItems(selection, choices)|
    ensures forall i :: 0 <= i < |calls| ==> calls[i] == PluginInject(ResolvedItems(selection, choices)[i], plugin, onboot)
    ensures done <==> |selection| > 0 && AllSucceeded(selection, choices, replies)
  {
    var result;
    result, calls := ResolvingDispatch(selection, choices, replies, InjectOn(plugin, onboot));
    done := result.Some?;
  }

  /** `StartPluginForm.handle`: `PluginStart` with the defaulted parameters. */
  method StartHandle(plugin: Uuid, parametersText: string, parsed: Value, selection: seq<Uuid>, choices: seq<Choice<Uuid>>, replies: seq<Option<Value>>)
    returns (done: bool, calls: seq<RemoteCall>)
    requires |replies| == |selection|
    ensures |calls| == |ResolvedItems(selection, choices)|
    ensures forall i :: 0 <= i < |calls| ==>
              calls[i] == PluginAction(ResolvedItems(selection, choices)[i], plugin, "PluginStart", Parameters(parametersText, parsed))
    ensures done <==> |selection| > 0 && AllSucceeded(selection, choices, replies)
  {
    var parameters := Parameters(parametersText, parsed);
    var result;
    result, calls := ResolvingDispatch(selection, choices, replies, ActionOn(plugin, "PluginStart", parameters));
    done := result.Some?;
  }

  /** `StopPluginForm.handle`: `PluginStop` with the defaulted delay. */
  method StopHandle(plugin: Uuid, delay: Option<int>, selection: seq<Uuid>, choices: seq<Choice<Uuid>>, replies: seq<Option<Value>>)
    returns (done: bool, calls: seq<RemoteCall>)
    requires |replies| == |selection|
    ensures |calls| == |ResolvedItems(selection, choices)|
    ensures forall i :: 0 <= i < |calls| ==>
              calls[i] == PluginAction(ResolvedItems(selection, choices)[i], plugin, "PluginStop", StopDelay(delay))
    ensures done <==> |selection| > 0 && AllSucceeded(selection, choices, replies)
  {
    var result;
    result, calls := ResolvingDispatch(selection, choices, replies, ActionOn(plugin, "PluginStop", StopDelay(delay)));
    done := result.Some?;
  }

  /** `CallPluginForm.handle`: `PluginCall` with the defaulted parameters. */
  method CallHandle(plugin: Uuid, parametersText: string, parsed: Value, selection: seq<Uuid>, choices: seq<Choice<Uuid>>, replies: seq<Option<Value>>)
    returns (done: bool, calls: seq<RemoteCall>)
    requires |replies| == |selection|
    ensures |calls| == |ResolvedItems(selection, choices)|
    ensures forall i :: 0 <= i < |calls| ==>
              calls[i] == PluginAction(ResolvedItems(selection, choices)[i], plugin, "PluginCall", Parameters(parametersText, parsed))
    ensures done <==> |selection| > 0 && AllSucceeded(selection, choices, replies)
  {
    var parameters := Parameters(parametersText, parsed);
    var result;
    result, calls := ResolvingDispatch(selection, choices, replies, ActionOn(plugin, "PluginCall", parameters));
    done := result.Some?;
  }

  /** `RemovePluginForm.handle`: one `plugin_remove(board, plugin)` per board found. */
  method RemoveHandle(plugin: Uuid, selection: seq<Uuid>, choices: seq<Choice<Uuid>>, replies: seq<Option<Value>>)
    returns (done: bool, calls: seq<RemoteCall>)
    requires |replies| == |selection|
    ensures |calls| == |ResolvedItems(selection, choices)|
    ensures forall i :: 0 <= i < |calls| ==> calls[i] == PluginRemove(ResolvedItems(selection, choices)[i], plugin)
    ensures done <==> |selection| > 0 && AllSucceeded(selection, choices, replies)
  {
    var result;
    result, calls := ResolvingDispatch(selection, choices, replies, RemoveOn(plugin));
    done := result.Some?;
  }

  /** The plugin update form: the widgets its lock rule rewrites. */
  class UpdatePluginForm {
    var nameAttrs: Attrs
    var publicAttrs: Attrs
    var callableAttrs: Attrs
    var codeAttrs: Attrs

    /** `__init__`: a user without the plugin update right who does not own
        the plugin sees name and code readonly, public and callable disabled. */
    constructor (canUpdatePlugins: bool, canUpdateProjectPlugins: bool, userId: Uuid, owner: Uuid)
      ensures nameAttrs == (if PluginLock(canUpdatePlugins, canUpdateProjectPlugins, userId, owner) then ReadOnly else map[])
      ensures publicAttrs == (if PluginLock(canUpdatePlugins, canUpdateProjectPlugins, userId, owner) then Disabled else map[])
      ensures callableAttrs == (if PluginLock(canUpdatePlugins, canUpdateProjectPlugins, userId, owner) then Disabled else map[])
      ensures codeAttrs == (if PluginLock(canUpdatePlugins, canUpdateProjectPlugins, userId, owner) then ReadOnly else Switchable("slug-code"))
    {
      nameAttrs := map[];
      publicAttrs := map[];
      callableAttrs := map[];
      codeAttrs := Switchable("slug-code");
      if canUpdatePlugins {
      } else if canUpdateProjectPlugins {
        if userId != owner {
          nameAttrs := ReadOnly;
          publicAttrs := Disabled;
          callableAttrs := Disabled;
          codeAttrs := ReadOnly;
        }
      } else {
        if userId != owner {
          nameAttrs := ReadOnly;
          publicAttrs := Disabled;
          callableAttrs := Disabled;
          codeAttrs := ReadOnly;
        }
      }
    }
  }
}
