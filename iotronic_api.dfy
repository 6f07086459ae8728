/**
 * The dashboard's adapter to the IoT client (iotronic_ui/api/iotronic.py).
 * Most of its functions forward one call; the model keeps the request
 * bodies they build and the two functions that merge listings with
 * lookups: `plugins_on_board` and `services_on_board`.
 *
 * A remote call is a `RemoteCall` value: the forms return the calls they
 * issue, so that what was sent, to whom and in which order is part of
 * their contracts. Lookups of the client are functions passed in; `None`
 * stands for a lookup that raised.
 */
module IotronicApi {
  import opened Entities

  /** The remote operations the dashboard issues, with their arguments. */
  datatype RemoteCall =
    | BoardCreate(params: map<string, Value>)
    | BoardUpdate(board: Uuid, patch: map<string, Value>)
    | PluginCreate(params: map<string, Value>)
    | PluginInject(board: Uuid, plugin: Uuid, onboot: bool)
    | PluginAction(board: Uuid, plugin: Uuid, action: string, actionParams: Value)
    | PluginRemove(board: Uuid, plugin: Uuid)
    | ServiceCreate(params: map<string, Value>)
    | ServiceUpdate(service: Uuid, patch: map<string, Value>)
    | ServiceAction(board: Uuid, service: Uuid, action: string)
    | AttachPort(board: Uuid, network: string, subnet: string)
    | DetachPort(board: Uuid, port: Uuid)
    | WebserviceExpose(board: Uuid, name: string, localPort: int, secure: bool)
    | WebserviceUnexpose(webservice: Uuid)
    | FleetCreate(name: string, description: string)
    | FleetUpdate(fleet: Uuid, patch: map<string, Value>)

  /** The body of `board_create`. */
  function BoardCreateParams(code: string, mobile: bool, location: Value, boardType: string, name: string): (params: map<string, Value>)
    ensures params.Keys == {"code", "mobile", "location", "type", "name"}
    ensures params["code"] == Str(code) && params["mobile"] == Bool(mobile) && params["location"] == location
    ensures params["type"] == Str(boardType) && params["name"] == Str(name)
  {
    map["code" := Str(code), "mobile" := Bool(mobile), "location" := location,
        "type" := Str(boardType), "name" := Str(name)]
  }

  /** The body of `plugin_create`. */
  function PluginCreateParams(name: string, public: bool, isCallable: bool, code: string, parameters: Value): (params: map<string, Value>)
    ensures params.Keys == {"name", "public", "callable", "code", "parameters"}
    ensures params["name"] == Str(name) && params["public"] == Bool(public)
    ensures params["callable"] == Bool(isCallable) && params["code"] == Str(code)
    ensures params["parameters"] == parameters
  {
    map["name" := Str(name), "public" := Bool(public), "callable" := Bool(isCallable),
        "code" := Str(code), "parameters" := parameters]
  }

  /** The body of `service_create`. */
  function ServiceCreateParams(name: string, port: int, protocol: string): (params: map<string, Value>)
    ensures params.Keys == {"name", "port", "protocol"}
    ensures params["name"] == Str(name) && params["port"] == Int(port) && params["protocol"] == Str(protocol)
  {
    map["name" := Str(name), "port" := Int(port), "protocol" := Str(protocol)]
  }

  /** `plugins_on_board`: one entry per injection record, in order, naming the
      injected plugin by a lookup; a failing lookup aborts the whole listing. */
  method PluginsOnBoard(injections: seq<PluginInjection>, pluginName: Uuid -> Option<string>)
    returns (detailed: Option<seq<PluginOnBoard>>)
    ensures detailed.Some? <==> forall i :: 0 <= i < |injections| ==> pluginName(injections[i].plugin).Some?
    ensures detailed.Some? ==> |detailed.value| == |injections|
    ensures detailed.Some? ==> forall i :: 0 <= i < |injections| ==>
              detailed.value[i] == PluginOnBoard(pluginName(injections[i].plugin).value, injections[i].plugin)
  {
    var acc: seq<PluginOnBoard> := [];
    var i := 0;
    while i < |injections|
      invariant 0 <= i <= |injections|
      invariant forall k :: 0 <= k < i ==> pluginName(injections[k].plugin).Some?
      invariant |acc| == i
      invariant forall k :: 0 <= k < i ==> acc[k] == PluginOnBoard(pluginName(injections[k].plugin).value, injections[k].plugin)
    {
      var details := pluginName(injections[i].plugin);
      if details.None? {
        return None;
      }
      acc := acc + [PluginOnBoard(details.value, injections[i].plugin)];
      i := i + 1;
    }
    return Some(acc);
  }

  /** What `services_on_board` returns: the client's records as they are, or
      one detailed record per enablement record. */
  datatype ServicesListing =
    | Raw(records: seq<ExposedService>)
    | Detailed(rows: seq<ServiceDetail>)

  /** A detailed record as the dictionary the adapter builds. */
  function DetailAsDict(d: ServiceDetail): (row: map<string, Value>)
    ensures row.Keys == {"name", "public_port", "port", "protocol"}
    ensures "uuid" !in row
    ensures row["name"] == Str(d.name) && row["public_port"] == Int(d.publicPort)
    ensures row["port"] == Int(d.port) && row["protocol"] == Str(d.protocol)
  {
    map["name" := Str(d.name), "public_port" := Int(d.publicPort),
        "port" := Int(d.port), "protocol" := Str(d.protocol)]
  }

  /** `services_on_board`: with `detail`, merge each enablement record with the
      looked-up definition (name, port and protocol from the definition, the
      public port from the record); without it, return the records unchanged.
      A failing lookup aborts the listing. */
  method ServicesOnBoard(records: seq<ExposedService>, detail: bool, definition: Uuid -> Option<Service>)
    returns (listing: Option<ServicesListing>)
    ensures !detail ==> listing == Some(Raw(records))
    ensures detail ==> (listing.Some? <==> forall i :: 0 <= i < |records| ==> definition(records[i].service).Some?)
    ensures detail && listing.Some? ==> listing.value.Detailed? && |listing.value.rows| == |records|
    ensures detail && listing.Some? ==> forall i :: 0 <= i < |records| ==>
              listing.value.rows[i] == Merge(records[i], definition(records[i].service).value)
  {
    if !detail {
      return Some(Raw(records));
    }
    var rows: seq<ServiceDetail> := [];
    var i := 0;
    while i < |records|
      invariant 0 <= i <= |records|
      invariant forall k :: 0 <= k < i ==> definition(records[k].service).Some?
      invariant |rows| == i
      invariant forall k :: 0 <= k < i ==> rows[k] == Merge(records[k], definition(records[k].service).value)
    {
      var details := definition(records[i].service);
      if details.None? {
        return None;
      }
      rows := rows + [Merge(records[i], details.value)];
      i := i + 1;
    }
    return Some(Detailed(rows));
  }

  /** One detailed record: the definition's name, port and protocol, and the
      enablement record's public port. */
  function Merge(record: ExposedService, def: Service): (d: ServiceDetail)
    ensures d.publicPort == record.publicPort
    ensures d.name == def.name && d.port == def.port && d.protocol == def.protocol
  {
    ServiceDetail(def.name, record.publicPort, def.port, def.protocol)
  }

  /** Each detailed row, as sent to the templates, carries exactly the four
      keys and no uuid; the public port is the record's, the rest the definition's. */
  lemma DetailedRowKeys(record: ExposedService, def: Service)
    ensures DetailAsDict(Merge(record, def)).Keys == {"name", "public_port", "port", "protocol"}
    ensures DetailAsDict(Merge(record, def))["public_port"] == Int(record.publicPort)
    ensures DetailAsDict(Merge(record, def))["name"] == Str(def.name)
  {
  }
}
