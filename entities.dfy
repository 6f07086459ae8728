/**
 * The records the dashboard reads from the IoT service and the values it
 * hands back. Every remote object is a value here: the views receive the
 * listings as sequences and the lookups as functions supplied by the caller.
 */
module Entities {

  datatype Option<+T> = None | Some(value: T)

  /** Identifiers are the service's uuid strings. */
  type Uuid = string

  /** A Django choice: the `(value, label)` pair a select widget shows (its label is `caption`). */
  datatype Choice<K> = Choice(key: K, caption: string)

  /** The JSON-like values that end up in request bodies. */
  datatype Value =
    | Null
    | Bool(b: bool)
    | Int(i: int)
    | Str(s: string)
    | List(items: seq<Value>)
    | Dict(entries: map<string, Value>)

  /** A board as listed by the service, with the two fields the index view
      adds: the filtered service list and the fleet's name. */
  datatype Board = Board(
    uuid: Uuid,
    name: string,
    owner: Uuid,
    fleet: Option<Uuid>,
    services: seq<ServiceDetail>,
    fleetName: Option<string>)

  datatype Fleet = Fleet(uuid: Uuid, name: string)

  datatype Plugin = Plugin(uuid: Uuid, name: string, owner: string, public: bool, callable: Value)

  datatype User = User(id: Uuid, name: string)

  /** A cloud service definition. */
  datatype Service = Service(uuid: Uuid, name: string, port: int, protocol: string)

  /** An enablement record of `services_on_board`: which service, on which public port. */
  datatype ExposedService = ExposedService(service: Uuid, publicPort: int)

  /** A detailed record of a service enabled on a board. */
  datatype ServiceDetail = ServiceDetail(name: string, publicPort: int, port: int, protocol: string)

  /** A service enabled on a board as the board views read it: only its uuid
      and its name matter to them. */
  datatype BoardService = BoardService(uuid: Uuid, name: string)

  /** An injection record of `plugins_on_board`: the injected plugin's uuid. */
  datatype PluginInjection = PluginInjection(plugin: Uuid)

  /** An entry of `plugins_on_board`. */
  datatype PluginOnBoard = PluginOnBoard(name: string, id: Uuid)

  datatype Port = Port(uuid: Uuid, ip: string, boardUuid: Uuid)

  datatype Subnet = Subnet(id: string, name: string)

  datatype Network = Network(id: string, name: string, subnets: seq<Subnet>)

  datatype Webservice = Webservice(uuid: Uuid, name: string, boardUuid: Uuid)

  /** A board's record in the list of enabled webservices, with the fields the
      webservice index view rewrites: `uuid`, `name` and the URL list. */
  datatype EnabledWebservice = EnabledWebservice(
    boardUuid: Uuid,
    uuid: Uuid,
    name: string,
    dns: string,
    zone: string,
    webservices: seq<string>)

  /** A widget's HTML attributes. */
  type Attrs = map<string, string>

  const ReadOnly: Attrs := map["readonly" := "readonly"]
  const Disabled: Attrs := map["disabled" := "disabled"]

  /** Attributes a `switchable` widget is declared with. */
  function Switchable(slug: string): Attrs
  {
    map["class" := "switchable", "data-slug" := slug]
  }

  /** The policy answers a form consults, as booleans. */
  datatype Policy = Policy(canUpdate: bool, isManager: bool, isAdmin: bool)
}
