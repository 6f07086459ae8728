/**
 * The plugin views (iotronic_ui/iot/plugins/views.py): the index listing,
 * which replaces each plugin's owner id by the owner's user name in place,
 * and the board list the inject, start, stop, call and remove dialogs share.
 */
module PluginViews {
  import opened Entities
  import opened Seqs
  import opened Sorting
  import opened Choices

  /** The name of the first user whose id is `owner`; `owner` itself when no
      user has that id. */
  function OwnerName(owner: string, users: seq<User>): string
  {
    if users == [] then owner
    else if users[0].id == owner then users[0].name
    else OwnerName(owner, users[1..])
  }

  /** The first matching user decides the name. */
  lemma {:induction false} OwnerNameFirstMatch(owner: string, users: seq<User>, k: int)
    requires 0 <= k < |users| && users[k].id == owner
    requires forall m :: 0 <= m < k ==> users[m].id != owner
    ensures OwnerName(owner, users) == users[k].name
  {
    if k > 0 {
      OwnerNameFirstMatch(owner, users[1..], k - 1);
    }
  }

  /** Without a matching user the owner is left as it was. */
  lemma {:induction false} OwnerNameNoMatch(owner: string, users: seq<User>)
    requires forall m :: 0 <= m < |users| ==> users[m].id != owner
    ensures OwnerName(owner, users) == owner
  {
    if users != [] {
      OwnerNameNoMatch(owner, users[1..]);
    }
  }

  /** The shown owner is the id itself or the name of a user with that id. */
  lemma {:induction false} OwnerNameRange(owner: string, users: seq<User>)
    ensures OwnerName(owner, users) == owner ||
            exists k :: 0 <= k < |users| && users[k].id == owner && users[k].name == OwnerName(owner, users)
  {
    if users != [] && users[0].id != owner {
      OwnerNameRange(owner, users[1..]);
      if OwnerName(owner, users) != owner {
        var k :| 0 <= k < |users[1..]| && users[1..][k].id == owner && users[1..][k].name == OwnerName(owner, users);
        assert users[k + 1] == users[1..][k];
      }
    }
  }

  /** A plugin as the index view shows it: only the owner changes. */
  function WithOwnerName(p: Plugin, users: seq<User>): Plugin
  {
    p.(owner := OwnerName(p.owner, users))
  }

  /** The owner loop of `IndexView.get_data`: each plugin's owner becomes the
      name of the first user with that id, in place, nothing else changing. */
  method ReplaceOwners(plugins: array<Plugin>, users: seq<User>)
    modifies plugins
    ensures forall k :: 0 <= k < plugins.Length ==> plugins[k] == WithOwnerName(old(plugins[k]), users)
  {
    var i := 0;
    while i < plugins.Length
      invariant 0 <= i <= plugins.Length
      invariant forall k :: 0 <= k < i ==> plugins[k] == WithOwnerName(old(plugins[k]), users)
      invariant forall k :: i <= k < plugins.Length ==> plugins[k] == old(plugins[k])
    {
      var j := 0;
      while j < |users|
        invariant 0 <= j <= |users|
        invariant forall k :: 0 <= k < i ==> plugins[k] == WithOwnerName(old(plugins[k]), users)
        invariant forall k :: i <= k < plugins.Length ==> plugins[k] == old(plugins[k])
        invariant forall m :: 0 <= m < j ==> users[m].id != plugins[i].owner
      {
        if plugins[i].owner == users[j].id {
          OwnerNameFirstMatch(plugins[i].owner, users, j);
          plugins[i] := plugins[i].(owner := users[j].name);
          break;
        }
        j := j + 1;
      }
      if j == |users| {
        OwnerNameNoMatch(plugins[i].owner, users);
      }
      i := i + 1;
    }
  }

  /** `IndexView.get_data`. `listing` is the plugin list of whichever policy
      branch ran (None when it raised); `userListing` is the user list, which
      only the list-all-plugins branch asks for (None when it raised). */
  method IndexGetData(listAll: bool, listing: Option<seq<Plugin>>, userListing: Option<seq<User>>)
    returns (plugins: seq<Plugin>)
    ensures listing.None? ==> plugins == []
    ensures listing.Some? ==> |plugins| == |listing.value|
    ensures listing.Some? && listAll && userListing.Some? ==>
              forall k :: 0 <= k < |plugins| ==> plugins[k] == WithOwnerName(listing.value[k], userListing.value)
    ensures !(listAll && userListing.Some?) ==> plugins == (if listing.Some? then listing.value else [])
  {
    var listed: seq<Plugin> := [];
    var users: seq<User> := [];
    if listAll {
      if listing.Some? {
        listed := listing.value;
        if userListing.Some? {
          users := userListing.value;
        }
      }
    } else if listing.Some? {
      listed := listing.value;
    }
    var arr := new Plugin[|listed|](k requires 0 <= k < |listed| => listed[k]);
    ReplaceOwners(arr, users);
    plugins := arr[..];
    if users == [] {
      forall k | 0 <= k < |plugins|
        ensures plugins[k] == listed[k]
      {
        OwnerNameNoMatch(listed[k].owner, users);
      }
    }
  }

  /** What the inject, start, stop, call and remove dialogs start from. */
  datatype PluginInitial = PluginInitial(uuid: Uuid, name: string, boardList: seq<Choice<Uuid>>)

  /** `InjectView.get_initial`, and the identical `get_initial` of the start,
      stop, call and remove views: the plugin's uuid and name, and one
      `(uuid, name)` per online board, ordered by name. */
  method BoardListInitial(plugin: Plugin, online: seq<Board>) returns (initial: PluginInitial)
    ensures initial.uuid == plugin.uuid && initial.name == plugin.name
    ensures initial.boardList == SortedChoices(online, BoardName, BoardChoice)
    ensures |initial.boardList| == |online|
    ensures SortedBy(initial.boardList, Caption)
    ensures multiset(initial.boardList) == multiset(MapSeq(online, BoardChoice))
  {
    var boardList := BoardChoices(online);
    initial := PluginInitial(plugin.uuid, plugin.name, boardList);
  }
}
