# iotronic-ui: a Dafny model of the dashboard's list logic

The iotronic-ui dashboard manages IoT boards, plugins, services, fleets and
webservices. It does so by calling a remote IoT service. Once those remote
calls are treated as inputs, four pieces of sequential logic remain. This
project models them and proves what they promise:

- **Multi-target forms.** Each `handle` walks the user's selection. Some forms
  first look each key up among the field's choices. A form makes one remote
  call per item, keeps going after a failure, and uses a success counter to
  decide what it returns (`Dispatch`, `BoardForms`, `PluginForms`,
  `ServiceForms`, `WebserviceForms`).
- **Choice lists and joins.** These are built by the views and the adapter
  (`BoardViews`, `PluginViews`, `ServiceViews`, `WebserviceViews`,
  `IotronicApi`, `Choices`):
  - the services a board can still enable;
  - the ports of a board;
  - the service lists without the two webservice entries;
  - lists sorted by name and mapped to `(uuid, name)` pairs;
  - network/subnet keys, joined with `:` in the view and split back apart in the form;
  - plugin owners shown by user name;
  - webservice URLs;
  - the adapter's merge of enablement records with looked-up definitions.
- **Table logic.** The case-insensitive name filter of every table, the row
  ids, and the plugin row actions chosen by the `callable` flag (`NameFilter`,
  the `*Tables` modules).
- **Field-lock rules.** The policy answers, the user and the owner decide
  which fields of the update forms are readonly or disabled (`Locks` and the
  form classes).

Remote calls appear in two ways:
- A form returns the calls it issues as `RemoteCall` values: what was sent, to
  whom, and in which order.
- The outcome of each call is an input. `replies[i]` is what the call for the
  i-th selected item returned, and `None` means the call raised.

Lookups made by the views (fleet, board, service and plugin details) are
functions passed in, with `None` for a lookup that raises.

Records that a view updates in place (boards, plugins, enabled webservices)
are arrays of values. The method that updates them has a `modifies` clause,
and its `ensures` states each element's new value in terms of its old one.

A multi-target `handle` returns True (or, for the service action form, the
last reply) exactly when the selection is not empty and every selected item
was found among the choices and its call returned. A failure in the middle
therefore means no success is reported, even when the last item succeeds. The
model follows the code here, which is stricter than "success when the last
item succeeds". The counter only advances on a success, so it reaches
`len(selection) - 1` at the last item only when every earlier item succeeded.

## Model

| member | source | states |
|---|---|---|
| IotronicApi.BoardCreateParams | iotronic_ui/api/iotronic.py:56-63 | the body of `board_create` has exactly the keys code, mobile, location, type, name, carrying the arguments |
| IotronicApi.PluginCreateParams | iotronic_ui/api/iotronic.py:95-101 | the body of `plugin_create` has exactly the keys name, public, callable, code, parameters, carrying the arguments |
| IotronicApi.ServiceCreateParams | iotronic_ui/api/iotronic.py:174-178 | the body of `service_create` has exactly the keys name, port, protocol |
| IotronicApi.PluginsOnBoard | iotronic_ui/api/iotronic.py:145-158 | one entry per injection record, in order; each entry's id is the injection's plugin and its name is the looked-up plugin's name; a failing lookup aborts the listing |
| IotronicApi.ServicesOnBoard | iotronic_ui/api/iotronic.py:195-217 | without detail the records come back unchanged; with detail there is one merged record per enablement record, in order, and a failing lookup aborts |
| IotronicApi.Merge | iotronic_ui/api/iotronic.py:208-212 | the public port comes from the enablement record; name, port and protocol come from the definition |
| IotronicApi.DetailAsDict | iotronic_ui/api/iotronic.py:208-212 | a detailed record has exactly the keys name, public_port, port, protocol and no uuid |
| IotronicApi.DetailedRowKeys | iotronic_ui/api/iotronic.py:208-212 | a merged record, as a dictionary, has the four keys, the record's public port and the definition's name |
| Dispatch.DirectDispatch | iotronic_ui/iot/boards/forms.py:198-217 | one call per selected key, in selection order, whatever the replies; the result is the last reply exactly when the selection is non-empty and every call returned, and None otherwise |
| Dispatch.ResolvingDispatch | iotronic_ui/iot/boards/forms.py:436-461 | one call per selected key that a choice carries (a single call even when several choices carry it), in selection order; the result is the last reply exactly when the selection is non-empty and every key was found and its call returned |
| Sorting.SortMultiset | iotronic_ui/iot/plugins/views.py:133 | sorting by name keeps the same elements with the same multiplicities |
| Sorting.SortSorted | iotronic_ui/iot/plugins/views.py:133 | the sorted list is ordered by name, lexicographically |
| Sorting.SortStable | iotronic_ui/iot/plugins/views.py:133 | elements with equal names keep their relative order, as in Python's stable sort |
| Choices.ChoicesOf | iotronic_ui/iot/plugins/views.py:135-137 | the append loop yields one choice per element, in order |
| Choices.SortedChoiceList | iotronic_ui/iot/plugins/views.py:133-137 | sort by name, then append the pairs: equals the sorted listing mapped to choices |
| Choices.SortedChoicesProperties | iotronic_ui/iot/plugins/views.py:133-137 | when a choice's caption is its element's name, the list is ordered by caption, is a permutation of the element-wise choices, and keeps listing order among equal names |
| Choices.BoardChoices | iotronic_ui/iot/plugins/views.py:132-137 | one `(uuid, name)` per online board, ordered by name, nothing dropped or repeated |
| Choices.BoardOfferedIffListed | iotronic_ui/iot/plugins/views.py:132-137 | a board's choice is offered iff the board was listed |
| Text.LowerIsLower | iotronic_ui/iot/boards/tables.py:166 | lower-casing keeps the length and leaves no upper-case letter |
| Text.LowerIdempotent | iotronic_ui/iot/boards/tables.py:166 | lower-casing twice is lower-casing once |
| Text.ContainsIsSubstring | iotronic_ui/iot/boards/tables.py:167-168 | the containment test used by `q in name` holds iff the query occurs at some position of the name |
| Text.EmptyContained | iotronic_ui/iot/boards/tables.py:167-168 | the empty query is contained in every name |
| Text.Split | iotronic_ui/iot/boards/forms.py:285 | `str.split(':')` always yields at least one piece |
| Text.SplitJoinInverse | iotronic_ui/iot/boards/forms.py:285 | joining the pieces with the separator gives back the string, and no piece holds the separator |
| Text.SplitPieces | iotronic_ui/iot/boards/forms.py:285-288 | a string splits into two or more pieces iff it holds the separator, and then it begins with piece 0, the separator and piece 1 |
| Locks.OwnerLock | iotronic_ui/iot/boards/forms.py:125-143 | the update right, or the manager or admin role, never locks; the owner is never locked; anyone else is |
| Locks.PluginLock | iotronic_ui/iot/plugins/forms.py:420-448 | locked iff the user lacks the plugin update right and is not the owner; the project-plugins right changes nothing |
| BoardViews.FilterWebservices | iotronic_ui/iot/boards/views.py:81-87 | the loop yields the board's services without the two webservice entries |
| BoardViews.WithoutWebservicesSpec | iotronic_ui/iot/boards/views.py:81-87 | a service stays iff its name is neither `webservice` nor `webservice_ssl`, and the survivors keep their order |
| BoardViews.FleetNameNoneIffNoFleet | iotronic_ui/iot/boards/views.py:93-100 | `fleet_name` is None iff the board has no fleet, and is the looked-up name otherwise |
| BoardViews.AnnotateBoards | iotronic_ui/iot/boards/views.py:73-100 | each listed board, updated in place, gets its filtered services and its fleet name; a failing lookup raises out of the view |
| BoardViews.IndexGetData | iotronic_ui/iot/boards/views.py:43-102 | a failed listing gives an empty list; otherwise the result has the same boards in the same order, each annotated, or the view raises if a lookup fails |
| BoardViews.OfferedServices | iotronic_ui/iot/boards/views.py:197-213 | the counter-driven nested scan yields exactly the cloud services not enabled on the board, in cloud-list order |
| BoardViews.OfferedMembers | iotronic_ui/iot/boards/views.py:199-213 | a cloud service is offered iff no enabled service has its uuid; everything offered is a listed cloud service |
| BoardViews.OfferedInCloudOrder | iotronic_ui/iot/boards/views.py:199-213 | the offered list is a subsequence of the cloud list's choices |
| BoardViews.OfferedAllWhenNoneEnabled | iotronic_ui/iot/boards/views.py:201-203 | a board without enabled services is offered every cloud service |
| BoardViews.NetworkChoiceList | iotronic_ui/iot/boards/views.py:323-328 | the nested loop yields one choice per (network, subnet) pair, networks outer and subnets inner |
| BoardViews.NetworkChoicesMembers | iotronic_ui/iot/boards/views.py:325-328 | a choice is offered iff it is the `id:id`-keyed choice of a subnet of a listed network |
| BoardViews.DetachPortChoices | iotronic_ui/iot/boards/views.py:374-380 | one `(uuid, ip)` per port whose board is this board, in listing order |
| BoardViews.DetailPorts | iotronic_ui/iot/boards/views.py:599-604 | the detail view keeps exactly the port records of this board, in order |
| BoardViews.BoardPortsSpec | iotronic_ui/iot/boards/views.py:374-378 | a port is kept iff its board uuid is the board's, and the kept ports keep their order |
| BoardViews.RemovePluginChoices | iotronic_ui/iot/boards/views.py:498-504 | one `(id, name)` per plugin on the board, ordered by name, nothing dropped or repeated |
| BoardViews.RemoveServiceChoices | iotronic_ui/iot/boards/views.py:544-558 | the loop over the sorted services yields the removable list |
| BoardViews.RemovableSpec | iotronic_ui/iot/boards/views.py:547-558 | the removable list is ordered by name, shows every non-webservice service of the board and nothing else, and holds each one's choice as often as the board lists it |
| BoardViews.RemovableFromBoard | iotronic_ui/iot/boards/views.py:547-558 | every removable entry is the choice of a service of the board whose name is not a webservice name |
| BoardViews.RemovableCounts | iotronic_ui/iot/boards/views.py:547-558 | the removable list holds each non-webservice service's choice exactly as often as the board lists the service |
| BoardForms.EnableServiceHandle | iotronic_ui/iot/boards/forms.py:198-217 | one `ServiceEnable` call per selected service, in order; True iff the selection is non-empty and every call returned |
| BoardForms.DisableServiceHandle | iotronic_ui/iot/boards/forms.py:241-260 | one `ServiceDisable` call per selected service, in order; True iff the selection is non-empty and every call returned |
| BoardForms.DetachPortHandle | iotronic_ui/iot/boards/forms.py:331-353 | one `detach_port(board, port)` per selected port, in order; True iff the selection is non-empty and every call returned |
| BoardForms.RemovePluginsHandle | iotronic_ui/iot/boards/forms.py:436-461 | one `plugin_remove(board, key)` per selected id found among the choices, in order; True iff every selected id was found and its call returned |
| BoardForms.AttachPortHandle | iotronic_ui/iot/boards/forms.py:284-307 | a key without `:` raises before any call; otherwise one `attach_port` whose network and subnet hold no `:` and, with a `:` between them, begin the key, that is pieces 0 and 1 of the split; True iff the reply carries an ip |
| BoardForms.AttachKeyRoundTrip | iotronic_ui/iot/boards/forms.py:285-288 | a key built by the attach-port view from colon-free ids is split back into the network id and the subnet id |
| BoardForms.FleetChoiceList | iotronic_ui/iot/boards/forms.py:104-116 | the loop yields `(None, "-")` followed by the fleets sorted by name |
| BoardForms.FleetChoicesSpec | iotronic_ui/iot/boards/forms.py:106-112 | the "no fleet" entry comes first and only there; after it every fleet appears once, ordered by name |
| BoardForms.BoardPatch | iotronic_ui/iot/boards/forms.py:166-169 | the update patch has exactly the keys name, fleet, mobile |
| BoardForms.UpdateBoardForm.constructor | iotronic_ui/iot/boards/forms.py:101-143 | the fleet choices and initial value are set; name is readonly, and mobile and fleet are disabled, exactly when the lock rule applies |
| BoardForms.UpdateBoardForm.Handle | iotronic_ui/iot/boards/forms.py:154-174 | one `board_update` for the board with the three-key patch; True when the call returns, None when it raises |
| PluginViews.OwnerNameFirstMatch | iotronic_ui/iot/plugins/views.py:80-84 | the owner becomes the name of the first user whose id matches |
| PluginViews.OwnerNameNoMatch | iotronic_ui/iot/plugins/views.py:80-84 | without a matching user the owner is left unchanged |
| PluginViews.OwnerNameRange | iotronic_ui/iot/plugins/views.py:80-84 | the shown owner is the id itself or the name of a user with that id |
| PluginViews.ReplaceOwners | iotronic_ui/iot/plugins/views.py:80-84 | each plugin, updated in place, has its owner replaced as above and no other field changed; the count and order of plugins are unchanged |
| PluginViews.IndexGetData | iotronic_ui/iot/plugins/views.py:42-86 | a failed listing gives an empty list; only the list-all branch with a user list replaces owners; every other path returns the listing unchanged, so owners stay ids |
| PluginViews.BoardListInitial | iotronic_ui/iot/plugins/views.py:128-141 | the plugin's uuid and name, plus one `(uuid, name)` per online board, ordered by name, as a permutation; the start, stop, call and remove views build the same list |
| PluginForms.Parameters | iotronic_ui/iot/plugins/forms.py:65-68 | empty parameters become the empty object; otherwise the decoded text |
| PluginForms.StopDelay | iotronic_ui/iot/plugins/forms.py:249-252 | no delay or a zero delay becomes `{}`; otherwise `{"delay": d}` |
| PluginForms.CreatePluginCall | iotronic_ui/iot/plugins/forms.py:63-82 | one `plugin_create` with the five fields, the parameters defaulted |
| PluginForms.InjectHandle | iotronic_ui/iot/plugins/forms.py:113-139 | one `plugin_inject(board, plugin, onboot)` per selected board found among the choices, in order; True iff every selected board was found and its call returned |
| PluginForms.StartHandle | iotronic_ui/iot/plugins/forms.py:178-210 | one `PluginStart` action with the defaulted parameters per board found, in order; True iff all were found and returned |
| PluginForms.StopHandle | iotronic_ui/iot/plugins/forms.py:245-277 | one `PluginStop` action with the defaulted delay per board found, in order; True iff all were found and returned |
| PluginForms.CallHandle | iotronic_ui/iot/plugins/forms.py:315-347 | one `PluginCall` action with the defaulted parameters per board found, in order; True iff all were found and returned |
| PluginForms.RemoveHandle | iotronic_ui/iot/plugins/forms.py:376-403 | one `plugin_remove(board, plugin)` per board found, in order; True iff all were found and returned |
| PluginForms.UpdatePluginForm.constructor | iotronic_ui/iot/plugins/forms.py:420-448 | name and code are readonly, and public and callable disabled, exactly when the plugin lock rule applies |
| PluginTables.PluginFilter | iotronic_ui/iot/plugins/tables.py:125-129 | a plugin is kept iff the lower-cased query occurs in its lower-cased name; order is preserved; the empty query keeps all |
| PluginTables.PluginFilterIdempotent | iotronic_ui/iot/plugins/tables.py:125-129 | filtering twice with the same query equals filtering once |
| PluginTables.PluginObjectId | iotronic_ui/iot/plugins/tables.py:142-144 | the row id is the plugin's uuid, which the owner replacement leaves alone |
| PluginTables.GetRowActions | iotronic_ui/iot/plugins/tables.py:148-166 | the loop keeps exactly the actions the branch test admits, in order |
| PluginTables.RowActionsSpec | iotronic_ui/iot/plugins/tables.py:152-166 | the shown actions are a subsequence of the table's; edit, inject, remove and delete always stay; a callable plugin shows call but not the others; a non-callable one shows everything except call; any other flag shows only the common actions |
| ServiceViews.ActionGetInitial | iotronic_ui/iot/services/views.py:153-166 | the service's uuid and name unchanged, plus one `(uuid, name)` per online board, ordered by name, as a permutation |
| ServiceForms.ServiceActions | iotronic_ui/iot/services/forms.py:118-124 | the offered actions are exactly ServiceEnable, ServiceDisable and ServiceRestore |
| ServiceForms.ActionHandle | iotronic_ui/iot/services/forms.py:136-163 | for an action the select offers: one `service_action(board, service, action)` per selected board found, in order, each with one of the three offered actions; returns the last reply iff every selected board was found and its call returned, and None otherwise |
| ServiceForms.ServicePatch | iotronic_ui/iot/services/forms.py:91-94 | the update patch has exactly the keys name, port, protocol |
| ServiceForms.UpdateServiceForm.constructor | iotronic_ui/iot/services/forms.py:66-87 | name, port and protocol are readonly exactly when the lock rule applies |
| ServiceForms.UpdateServiceForm.Handle | iotronic_ui/iot/services/forms.py:89-99 | one `service_update` for the service with the three-key patch; True when the call returns, None when it raises |
| FleetForms.CreateFleetCall | iotronic_ui/iot/fleets/forms.py:36-46 | `fleet_create` receives the name and the description as entered |
| FleetForms.FleetPatch | iotronic_ui/iot/fleets/forms.py:82-84 | the update patch has exactly the keys name and description |
| FleetForms.UpdateFleetForm.constructor | iotronic_ui/iot/fleets/forms.py:58-78 | name and description, and only those, are readonly exactly when the lock rule applies |
| FleetForms.UpdateFleetForm.Handle | iotronic_ui/iot/fleets/forms.py:80-90 | one `fleet_update` for the fleet with the two-key patch; True when the call returns, None when it raises |
| WebserviceViews.ServiceUrl | iotronic_ui/iot/webservices/views.py:89 | the URL is `https://`, the webservice's name, a dot, the board's DNS name, a dot and the zone |
| WebserviceViews.UrlsForMembers | iotronic_ui/iot/webservices/views.py:84-90 | a URL is listed iff it is the URL of a webservice on the record's board |
| WebserviceViews.LastMatchUuidSpec | iotronic_ui/iot/webservices/views.py:84-90 | the record's uuid becomes that of the board's last webservice, and stays unchanged when the board has none |
| WebserviceViews.AnnotateEnabled | iotronic_ui/iot/webservices/views.py:82-96 | each enabled record, updated in place, gets that uuid, its board's name and one URL per webservice of the board, in listing order; a failing board lookup raises out of the view |
| WebserviceViews.IndexGetData | iotronic_ui/iot/webservices/views.py:42-99 | the result is the enabled list itself, same length and order, each record rewritten; a failed listing gives an empty list |
| WebserviceViews.UnexposeGetInitial | iotronic_ui/iot/webservices/views.py:164-177 | the board's uuid and name, plus one `(uuid, name)` per webservice on the board, ordered by name, as a permutation |
| WebserviceForms.ExposeHandle | iotronic_ui/iot/webservices/forms.py:52-64 | one `webservice_expose` with the board, name, port and secure flag as entered; True when it returns, None when it raises |
| WebserviceForms.UnexposeHandle | iotronic_ui/iot/webservices/forms.py:89-106 | one `webservice_unexpose` per selected id, in order, whatever the earlier ones did; True iff the selection is non-empty and every call returned |
| NameFilter.FilterByNameSpec | iotronic_ui/iot/boards/tables.py:164-168 | a row is kept iff the lower-cased query is a substring of its lower-cased name; kept rows keep their order |
| NameFilter.EmptyQueryKeepsAll | iotronic_ui/iot/boards/tables.py:164-168 | the empty query keeps every row |
| NameFilter.FilterByNameIdempotent | iotronic_ui/iot/boards/tables.py:164-168 | filtering twice with the same query equals filtering once |
| BoardTables.BoardFilter | iotronic_ui/iot/boards/tables.py:164-168 | a board is kept iff the lower-cased query occurs in its lower-cased name; order is preserved; the empty query keeps all |
| BoardTables.BoardFilterIdempotent | iotronic_ui/iot/boards/tables.py:164-168 | filtering twice with the same query equals filtering once |
| BoardTables.BoardObjectId | iotronic_ui/iot/boards/tables.py:195-196 | the row id is the board's uuid |
| BoardTables.AnnotationKeepsRowIdentity | iotronic_ui/iot/boards/tables.py:195-196 | the index view's annotation changes neither the row id nor the name the filter reads |
| ServiceTables.ServiceFilter | iotronic_ui/iot/services/tables.py:76-80 | a service is kept iff the lower-cased query occurs in its lower-cased name; order is preserved; the empty query keeps all |
| ServiceTables.ServiceFilterIdempotent | iotronic_ui/iot/services/tables.py:76-80 | filtering twice with the same query equals filtering once |
| ServiceTables.ServiceObjectId | iotronic_ui/iot/services/tables.py:91-92 | the row id is the service's uuid |
| FleetTables.FleetFilter | iotronic_ui/iot/fleets/tables.py:67-71 | a fleet is kept iff the lower-cased query occurs in its lower-cased name; order is preserved; the empty query keeps all |
| FleetTables.FleetFilterIdempotent | iotronic_ui/iot/fleets/tables.py:67-71 | filtering twice with the same query equals filtering once |
| FleetTables.FleetObjectId | iotronic_ui/iot/fleets/tables.py:81-82 | the row id is the fleet's uuid |
| WebserviceTables.WebserviceFilter | iotronic_ui/iot/webservices/tables.py:70-74 | a row is kept iff the lower-cased query occurs in its lower-cased name; order is preserved; the empty query keeps all |
| WebserviceTables.WebserviceFilterIdempotent | iotronic_ui/iot/webservices/tables.py:70-74 | filtering twice with the same query equals filtering once |
| WebserviceTables.WebserviceObjectId | iotronic_ui/iot/webservices/tables.py:106-108 | the row id is the board's uuid, not the record's own uuid |
| WebserviceTables.AnnotationKeepsRowId | iotronic_ui/iot/webservices/tables.py:106-108 | the index view rewrites the record's uuid but not its board uuid, so the row id survives; the name the filter reads is the board's name |

## Left out

- Remote services and framework calls are not modelled: the IoT client, neutron, keystone, `policy.check`, `messages` and `exceptions.handle`. Their results are parameters: reply sequences, lookup functions and policy booleans.
- "Keeps going after a failure" assumes that `exceptions.handle` returns. For some framework errors it re-raises, and then the loop stops.
- Translation with `_()` is left out: captions are the raw names.
- Python's `str.lower()` is modelled for ASCII letters only. Unicode case mapping is left out.
- Sorting is a stable insertion sort on values. Python's `list.sort` is also stable, so the two give the same list. The in-place update of the Python list object is not modelled.
- Boards, plugins and enabled webservices updated in place are arrays of distinct values. Aliasing is not captured: the same Python object listed twice would be updated once per listing.
- `json.loads` on a plugin's parameters is not modelled: its result is the `parsed` parameter. `cPickle` is left out, and with it `UpdatePluginForm.handle`.
- `CreateBoardForm` is left out: latitude, longitude and altitude are floats turned into strings. The request body it sends is modelled by `IotronicApi.BoardCreateParams`.
- The multi-target forms receive their `choices` as a parameter. Their `__init__` only copies the view's list into the field.
- The board update form's fleet value is passed through unchanged as a `Value`. Django's cleaning of the select is left out.
- The records of `services_on_board(detail=True)` carry no uuid, yet the enable-service and remove-services views read one. Those views work on `BoardService` records whose uuid is a field of its own; the two are not composed.
- The `fleet_*`, `port_*`, `webservice_*` and `boards_no_webservice` adapter functions are not part of this model. Their results are parameters.
- The webservice index view stores each URL inside a `{"service_url": url}` dictionary. The model keeps the URL strings.
- `ServiceForms.ActionHandle`: when the client's reply is itself Python's None, the form returns None although every call succeeded. The model returns `Some(Null)` in that case.
- `BoardForms.AttachKeyRoundTrip`: the round trip holds only for network and subnet ids without `:`. With a colon in an id, the form uses the first two pieces of the key.
- `DisableServiceView` sits inside a string literal and is not modelled. URL routing, panels, tabs, templates and the map script are left out.
- The remaining form handles outside the dashboard's list logic are not modelled: `CreateServiceForm`, `RemoveServicesForm`, `EnableWebServiceForm` and `DisableWebServiceForm`. Each forwards one call.
- The list views of services and fleets are not modelled: they only forward the listing.
