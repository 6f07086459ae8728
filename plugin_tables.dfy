/**
 * The plugins table (iotronic_ui/iot/plugins/tables.py): its filter action,
 * its row id and the row actions chosen by the plugin's `callable` flag.
 */
module PluginTables {
  import opened Entities
  import opened Seqs
  import opened Text
  import opened NameFilter
  import PluginViews

  function PluginName(p: Plugin): string
  {
    p.name
  }

  /** `PluginFilterAction.filter`: the plugins whose lower-cased name contains
      the lower-cased query, in listing order. */
  function PluginFilter(plugins: seq<Plugin>, filterString: string): (r: seq<Plugin>)
    ensures forall p :: p in r <==> p in plugins && IsSubstring(Lower(filterString), Lower(p.name))
    ensures IsSubsequence(r, plugins)
    ensures filterString == [] ==> r == plugins
  {
    FilterByNameSpec(plugins, PluginName, filterString);
    EmptyQueryKeepsAll(plugins, PluginName);
    FilterByName(plugins, PluginName, filterString)
  }

  /** Filtering the filtered plugins again with the same query changes nothing. */
  lemma PluginFilterIdempotent(plugins: seq<Plugin>, filterString: string)
    ensures PluginFilter(PluginFilter(plugins, filterString), filterString) == PluginFilter(plugins, filterString)
  {
    FilterByNameIdempotent(plugins, PluginName, filterString);
  }

  /** `PluginsTable.get_object_id`: a row is identified by the plugin's uuid,
      which the owner replacement of the index view leaves alone. */
  function PluginObjectId(p: Plugin): (id: Uuid)
    ensures id == p.uuid
    ensures forall users: seq<User> :: PluginViews.WithOwnerName(p, users).uuid == id
  {
    p.uuid
  }

  /** The actions every plugin row keeps. */
  const CommonActions: seq<string> := ["edit", "inject", "remove", "delete"]

  /** Python's `callable == True`: the flag is true, or the integer 1. */
  predicate IsTrue(v: Value)
  {
    v == Bool(true) || v == Int(1)
  }

  /** Python's `callable == False`: the flag is false, or the integer 0. */
  predicate IsFalse(v: Value)
  {
    v == Bool(false) || v == Int(0)
  }

  /** The test of `get_row_actions`, branch by branch. */
  function KeepAction(isCallable: Value): string -> bool
  {
    name => name in CommonActions || (IsTrue(isCallable) && name == "call") || (IsFalse(isCallable) && name != "call")
  }

  /** The actions a row shows, in the table's order. */
  function RowActions(actions: seq<string>, isCallable: Value): seq<string>
  {
    Filter(actions, KeepAction(isCallable))
  }

  /** The loop of `PluginsTable.get_row_actions`. */
  method GetRowActions(actions: seq<string>, isCallable: Value) returns (selected: seq<string>)
    ensures selected == RowActions(actions, isCallable)
  {
    selected := [];
    var commonActions := ["edit", "inject", "remove", "delete"];
    var i := 0;
    while i < |actions|
      invariant 0 <= i <= |actions|
      invariant selected == RowActions(actions[..i], isCallable)
    {
      var action := actions[i];
      assert actions[..i + 1] == actions[..i] + [action];
      FilterSnoc(actions[..i], action, KeepAction(isCallable));
      if action in commonActions {
        selected := selected + [action];
      } else if (isCallable == Bool(true) || isCallable == Int(1)) && action == "call" {
        selected := selected + [action];
      } else if (isCallable == Bool(false) || isCallable == Int(0)) && action != "call" {
        selected := selected + [action];
      }
      i := i + 1;
    }
    assert actions[..i] == actions;
  }

  /** The shown actions keep the table's order; the common ones are always
      shown; a callable plugin shows "call" but not start or stop, a
      non-callable one everything but "call", and any other flag only the
      common actions. */
  lemma RowActionsSpec(actions: seq<string>, isCallable: Value)
    ensures IsSubsequence(RowActions(actions, isCallable), actions)
    ensures forall a :: a in actions && a in CommonActions ==> a in RowActions(actions, isCallable)
    ensures IsTrue(isCallable) ==>
              forall a :: a in RowActions(actions, isCallable) <==> a in actions && (a in CommonActions || a == "call")
    ensures IsFalse(isCallable) ==>
              forall a :: a in RowActions(actions, isCallable) <==> a in actions && a != "call"
    ensures !IsTrue(isCallable) && !IsFalse(isCallable) ==>
              forall a :: a in RowActions(actions, isCallable) <==> a in actions && a in CommonActions
  {
    FilterIsSubsequence(actions, KeepAction(isCallable));
    FilterMembers(actions, KeepAction(isCallable));
  }
}
