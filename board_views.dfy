/**
 * The board views (iotronic_ui/iot/boards/views.py): the index listing,
 * which annotates each board in place, and the initial data of the
 * enable-service, attach-port, detach-port, remove-plugins and
 * remove-services dialogs. Listings and lookups of the remote services
 * are parameters.
 */
module BoardViews {
  import opened Entities
  import opened Seqs
  import opened Sorting
  import opened Choices

  // ---------------------------------------------------------------------
  // Index view: hide the two webservice services, add the fleet's name.

  /** The two service names the views keep out of sight. */
  predicate IsWebserviceName(name: string)
  {
    name == "webservice" || name == "webservice_ssl"
  }

  function NotWebserviceDetail(d: ServiceDetail): bool
  {
    !IsWebserviceName(d.name)
  }

  /** A board's services with the webservice entries dropped, in order. */
  function WithoutWebservices(services: seq<ServiceDetail>): seq<ServiceDetail>
  {
    Filter(services, NotWebserviceDetail)
  }

  /** The `filter_ws` loop of the index view. */
  method FilterWebservices(services: seq<ServiceDetail>) returns (filtered: seq<ServiceDetail>)
    ensures filtered == WithoutWebservices(services)
  {
    filtered := [];
    var i := 0;
    while i < |services|
      invariant 0 <= i <= |services|
      invariant filtered == WithoutWebservices(services[..i])
    {
      var service := services[i];
      FilterSnoc(services[..i], service, NotWebserviceDetail);
      assert services[..i + 1] == services[..i] + [service];
      if service.name != "webservice" && service.name != "webservice_ssl" {
        filtered := filtered + [service];
      }
      i := i + 1;
    }
    assert services[..i] == services;
  }

  /** A service stays iff its name is neither webservice name, and the
      survivors keep their order. */
  lemma WithoutWebservicesSpec(services: seq<ServiceDetail>)
    ensures IsSubsequence(WithoutWebservices(services), services)
    ensures forall d :: d in WithoutWebservices(services) <==> d in services && !IsWebserviceName(d.name)
  {
    FilterIsSubsequence(services, NotWebserviceDetail);
    FilterMembers(services, NotWebserviceDetail);
  }

  /** The remote lookups the index view makes for one board succeed: the
      detailed services, and the fleet when the board has one. */
  predicate LookupsSucceed(b: Board, servicesOf: Uuid -> Option<seq<ServiceDetail>>, fleetNameOf: Uuid -> Option<string>)
  {
    servicesOf(b.uuid).Some? && (b.fleet.Some? ==> fleetNameOf(b.fleet.value).Some?)
  }

  /** `fleet_name`: the fleet's name when the board belongs to a fleet, else None. */
  function FleetName(b: Board, fleetNameOf: Uuid -> Option<string>): Option<string>
    requires b.fleet.Some? ==> fleetNameOf(b.fleet.value).Some?
  {
    if b.fleet != None then Some(fleetNameOf(b.fleet.value).value) else None
  }

  /** `fleet_name` is None exactly for boards without a fleet. */
  lemma FleetNameNoneIffNoFleet(b: Board, fleetNameOf: Uuid -> Option<string>)
    requires b.fleet.Some? ==> fleetNameOf(b.fleet.value).Some?
    ensures FleetName(b, fleetNameOf).None? <==> b.fleet.None?
    ensures b.fleet.Some? ==> FleetName(b, fleetNameOf) == fleetNameOf(b.fleet.value)
  {
  }

  /** The board as the index view leaves it. */
  function Annotated(b: Board, servicesOf: Uuid -> Option<seq<ServiceDetail>>, fleetNameOf: Uuid -> Option<string>): Board
    requires LookupsSucceed(b, servicesOf, fleetNameOf)
  {
    b.(services := WithoutWebservices(servicesOf(b.uuid).value), fleetName := FleetName(b, fleetNameOf))
  }

  /** The loop of the index view, updating each listed board in place. A
      failing lookup raises out of the view (`ok` is false), leaving the
      boards before it updated. */
  method AnnotateBoards(boards: array<Board>, servicesOf: Uuid -> Option<seq<ServiceDetail>>, fleetNameOf: Uuid -> Option<string>)
    returns (ok: bool)
    modifies boards
    ensures ok <==> forall i :: 0 <= i < boards.Length ==> LookupsSucceed(old(boards[i]), servicesOf, fleetNameOf)
    ensures ok ==> forall i :: 0 <= i < boards.Length ==> boards[i] == Annotated(old(boards[i]), servicesOf, fleetNameOf)
  {
    var i := 0;
    while i < boards.Length
      invariant 0 <= i <= boards.Length
      invariant forall k :: 0 <= k < i ==> LookupsSucceed(old(boards[k]), servicesOf, fleetNameOf)
      invariant forall k :: 0 <= k < i ==> boards[k] == Annotated(old(boards[k]), servicesOf, fleetNameOf)
      invariant forall k :: i <= k < boards.Length ==> boards[k] == old(boards[k])
    {
      var board := boards[i];
      var boardServices := servicesOf(board.uuid);
      if boardServices.None? {
        return false;
      }
      var filtered := FilterWebservices(boardServices.value);
      var fleetName: Option<string>;
      if board.fleet != None {
        var fleetInfo := fleetNameOf(board.fleet.value);
        if fleetInfo.None? {
          return false;
        }
        fleetName := Some(fleetInfo.value);
      } else {
        fleetName := None;
      }
      boards[i] := board.(services := filtered, fleetName := fleetName);
      i := i + 1;
    }
    return true;
  }

  /** `IndexView.get_data`: every policy branch lists the boards the same way,
      and a failed listing leaves the list empty. Returns None when a lookup
      raises out of the view. */
  method IndexGetData(listing: Option<seq<Board>>, servicesOf: Uuid -> Option<seq<ServiceDetail>>, fleetNameOf: Uuid -> Option<string>)
    returns (boards: Option<seq<Board>>)
    ensures listing.None? ==> boards == Some([])
    ensures listing.Some? ==> (boards.Some? <==> forall b :: b in listing.value ==> LookupsSucceed(b, servicesOf, fleetNameOf))
    ensures listing.Some? && boards.Some? ==>
              |boards.value| == |listing.value| &&
              forall i :: 0 <= i < |listing.value| ==> boards.value[i] == Annotated(listing.value[i], servicesOf, fleetNameOf)
  {
    var listed: seq<Board> := if listing.Some? then listing.value else [];
    var arr := new Board[|listed|](i requires 0 <= i < |listed| => listed[i]);
    assert arr[..] == listed;
    var ok := AnnotateBoards(arr, servicesOf, fleetNameOf);
    if !ok {
      ghost var k :| 0 <= k < arr.Length && !LookupsSucceed(listed[k], servicesOf, fleetNameOf);
      assert listed[k] in listed;
      return None;
    }
    forall b | b in listed
      ensures LookupsSucceed(b, servicesOf, fleetNameOf)
    {
      var k :| 0 <= k < |listed| && listed[k] == b;
    }
    assert listing.None? ==> arr[..] == [];
    return Some(arr[..]);
  }

  // ---------------------------------------------------------------------
  // Enable-service dialog: the cloud services not yet enabled on the board.

  function ServiceChoice(s: Service): Choice<Uuid>
  {
    Choice(s.uuid, s.name)
  }

  /** Some service enabled on the board has this uuid. */
  predicate IsEnabled(onBoard: seq<BoardService>, uuid: Uuid)
  {
    exists k :: 0 <= k < |onBoard| && onBoard[k].uuid == uuid
  }

  function NotEnabledIn(onBoard: seq<BoardService>): Service -> bool
  {
    (s: Service) => !IsEnabled(onBoard, s.uuid)
  }

  /** The services the dialog offers, in cloud-list order. */
  function Offered(cloud: seq<Service>, onBoard: seq<BoardService>): seq<Choice<Uuid>>
  {
    MapSeq(Filter(cloud, NotEnabledIn(onBoard)), ServiceChoice)
  }

  /** The counter-driven scan of `EnableServiceView.get_initial`: a cloud
      service is appended when the board has no service at all, or when the
      scan of the board's services reaches the last one without a match. */
  method OfferedServices(cloud: seq<Service>, onBoard: seq<BoardService>) returns (serviceList: seq<Choice<Uuid>>)
    ensures serviceList == Offered(cloud, onBoard)
  {
    serviceList := [];
    var i := 0;
    while i < |cloud|
      invariant 0 <= i <= |cloud|
      invariant serviceList == Offered(cloud[..i], onBoard)
    {
      var cloudService := cloud[i];
      assert cloud[..i + 1] == cloud[..i] + [cloudService];
      FilterSnoc(cloud[..i], cloudService, NotEnabledIn(onBoard));
      MapSeqSnoc(Filter(cloud[..i], NotEnabledIn(onBoard)), cloudService, ServiceChoice);
      if |onBoard| == 0 {
        serviceList := serviceList + [ServiceChoice(cloudService)];
      } else {
        ghost var before := serviceList;
        var counter := 0;
        var j := 0;
        while j < |onBoard|
          invariant 0 <= j <= |onBoard|
          invariant j < |onBoard| ==> counter == j
          invariant forall m :: 0 <= m < j ==> onBoard[m].uuid != cloudService.uuid
          invariant serviceList == before + (if j == |onBoard| then [ServiceChoice(cloudService)] else [])
        {
          if onBoard[j].uuid == cloudService.uuid {
            break;
          } else if counter != |onBoard| - 1 {
            counter := counter + 1;
          } else {
            serviceList := serviceList + [ServiceChoice(cloudService)];
          }
          j := j + 1;
        }
      }
      i := i + 1;
    }
    assert cloud[..i] == cloud;
  }

  /** A listed cloud service is offered iff no enabled service has its uuid;
      everything offered is a listed, not enabled cloud service. */
  lemma OfferedMembers(cloud: seq<Service>, onBoard: seq<BoardService>)
    ensures forall s :: s in cloud ==> (ServiceChoice(s) in Offered(cloud, onBoard) <==> !IsEnabled(onBoard, s.uuid))
    ensures forall c :: c in Offered(cloud, onBoard) ==>
              !IsEnabled(onBoard, c.key) && exists s :: s in cloud && ServiceChoice(s) == c
  {
    var kept := Filter(cloud, NotEnabledIn(onBoard));
    FilterMembers(cloud, NotEnabledIn(onBoard));
    MapSeqMembers(kept, ServiceChoice);
    forall s | s in cloud && ServiceChoice(s) in Offered(cloud, onBoard)
      ensures !IsEnabled(onBoard, s.uuid)
    {
      var t :| t in kept && ServiceChoice(t) == ServiceChoice(s);
    }
  }

  /** The offered services keep the cloud list's order. */
  lemma OfferedInCloudOrder(cloud: seq<Service>, onBoard: seq<BoardService>)
    ensures IsSubsequence(Offered(cloud, onBoard), MapSeq(cloud, ServiceChoice))
  {
    FilterIsSubsequence(cloud, NotEnabledIn(onBoard));
    MapSubsequence(Filter(cloud, NotEnabledIn(onBoard)), cloud, ServiceChoice);
  }

  /** A board without enabled services is offered every cloud service. */
  lemma OfferedAllWhenNoneEnabled(cloud: seq<Service>)
    ensures Offered(cloud, []) == MapSeq(cloud, ServiceChoice)
  {
    FilterKeepsAll(cloud, NotEnabledIn([]));
  }

  // ---------------------------------------------------------------------
  // Attach-port dialog: one choice per (network, subnet) pair.

  /** The choice key: network id and subnet id joined by a colon. */
  function NetworkKey(net: Network, subnet: Subnet): string
  {
    net.id + ":" + subnet.id
  }

  function SubnetChoice(net: Network, subnet: Subnet): Choice<Uuid>
  {
    Choice(NetworkKey(net, subnet), net.name + ":" + subnet.name)
  }

  /** One network's subnets, in order. */
  function SubnetChoices(net: Network): seq<Choice<Uuid>>
  {
    seq(|net.subnets|, k requires 0 <= k < |net.subnets| => SubnetChoice(net, net.subnets[k]))
  }

  /** Networks outer, subnets inner. */
  function NetworkChoices(networks: seq<Network>): seq<Choice<Uuid>>
    decreases |networks|
  {
    if networks == [] then []
    else NetworkChoices(networks[..|networks| - 1]) + SubnetChoices(networks[|networks| - 1])
  }

  /** The nested loop of `AttachPortView.get_initial`. */
  method NetworkChoiceList(networks: seq<Network>) returns (netChoices: seq<Choice<Uuid>>)
    ensures netChoices == NetworkChoices(networks)
  {
    netChoices := [];
    var i := 0;
    while i < |networks|
      invariant 0 <= i <= |networks|
      invariant netChoices == NetworkChoices(networks[..i])
    {
      var net := networks[i];
      assert networks[..i + 1][..i] == networks[..i];
      ghost var before := netChoices;
      var j := 0;
      while j < |net.subnets|
        invariant 0 <= j <= |net.subnets|
        invariant netChoices == before + SubnetChoices(net)[..j]
      {
        assert SubnetChoices(net)[..j + 1] == SubnetChoices(net)[..j] + [SubnetChoice(net, net.subnets[j])];
        netChoices := netChoices + [SubnetChoice(net, net.subnets[j])];
        j := j + 1;
      }
      assert SubnetChoices(net)[..j] == SubnetChoices(net);
      i := i + 1;
    }
    assert networks[..i] == networks;
  }

  /** A choice is offered iff it is the choice of some subnet of some listed network. */
  lemma {:induction false} NetworkChoicesMembers(networks: seq<Network>)
    ensures forall c :: c in NetworkChoices(networks) <==>
              exists n, k :: n in networks && 0 <= k < |n.subnets| && c == SubnetChoice(n, n.subnets[k])
    decreases |networks|
  {
    if networks != [] {
      var init := networks[..|networks| - 1];
      var last := networks[|networks| - 1];
      NetworkChoicesMembers(init);
      assert networks == init + [last];
      forall c | c in NetworkChoices(networks)
        ensures exists n, k :: n in networks && 0 <= k < |n.subnets| && c == SubnetChoice(n, n.subnets[k])
      {
        if c !in NetworkChoices(init) {
          var k :| 0 <= k < |last.subnets| && SubnetChoices(last)[k] == c;
          assert c == SubnetChoice(last, last.subnets[k]);
        }
      }
      forall c | exists n, k :: n in networks && 0 <= k < |n.subnets| && c == SubnetChoice(n, n.subnets[k])
        ensures c in NetworkChoices(networks)
      {
        var n, k :| n in networks && 0 <= k < |n.subnets| && c == SubnetChoice(n, n.subnets[k]);
        if n != last {
          assert n in init;
        } else {
          assert SubnetChoices(last)[k] == c;
        }
      }
    }
  }

  // ---------------------------------------------------------------------
  // Detach-port dialog and detail view: the ports whose board is this one.

  function OnBoard(boardUuid: Uuid): Port -> bool
  {
    (p: Port) => p.boardUuid == boardUuid
  }

  /** The ports attached to the board, in listing order. */
  function BoardPorts(ports: seq<Port>, boardUuid: Uuid): seq<Port>
  {
    Filter(ports, OnBoard(boardUuid))
  }

  function PortChoice(p: Port): Choice<Uuid>
  {
    Choice(p.uuid, p.ip)
  }

  /** The filter loop of `DetachPortView.get_initial`: `(uuid, ip)` per port of the board. */
  method DetachPortChoices(ports: seq<Port>, boardUuid: Uuid) returns (filteredPorts: seq<Choice<Uuid>>)
    ensures filteredPorts == MapSeq(BoardPorts(ports, boardUuid), PortChoice)
  {
    filteredPorts := [];
    var i := 0;
    while i < |ports|
      invariant 0 <= i <= |ports|
      invariant filteredPorts == MapSeq(BoardPorts(ports[..i], boardUuid), PortChoice)
    {
      var port := ports[i];
      assert ports[..i + 1] == ports[..i] + [port];
      FilterSnoc(ports[..i], port, OnBoard(boardUuid));
      if port.boardUuid == boardUuid {
        MapSeqSnoc(BoardPorts(ports[..i], boardUuid), port, PortChoice);
        filteredPorts := filteredPorts + [PortChoice(port)];
      }
      i := i + 1;
    }
    assert ports[..i] == ports;
  }

  /** The filter loop of `DetailView.get_data`: the board's port records. */
  method DetailPorts(ports: seq<Port>, boardId: Uuid) returns (boardPorts: seq<Port>)
    ensures boardPorts == BoardPorts(ports, boardId)
  {
    boardPorts := [];
    var i := 0;
    while i < |ports|
      invariant 0 <= i <= |ports|
      invariant boardPorts == BoardPorts(ports[..i], boardId)
    {
      var port := ports[i];
      assert ports[..i + 1] == ports[..i] + [port];
      FilterSnoc(ports[..i], port, OnBoard(boardId));
      if port.boardUuid == boardId {
        boardPorts := boardPorts + [port];
      }
      i := i + 1;
    }
    assert ports[..i] == ports;
  }

  /** Exactly the ports of this board, in listing order. */
  lemma BoardPortsSpec(ports: seq<Port>, boardUuid: Uuid)
    ensures forall p :: p in BoardPorts(ports, boardUuid) <==> p in ports && p.boardUuid == boardUuid
    ensures IsSubsequence(BoardPorts(ports, boardUuid), ports)
  {
    FilterMembers(ports, OnBoard(boardUuid));
    FilterIsSubsequence(ports, OnBoard(boardUuid));
  }

  // ---------------------------------------------------------------------
  // Remove-plugins dialog: the board's plugins sorted by name.

  function PluginName(p: PluginOnBoard): string
  {
    p.name
  }

  function PluginChoice(p: PluginOnBoard): Choice<Uuid>
  {
    Choice(p.id, p.name)
  }

  /** `RemovePluginsView.get_initial`: one `(id, name)` per plugin on the
      board, ordered by name, nothing dropped or repeated. */
  method RemovePluginChoices(plugins: seq<PluginOnBoard>) returns (pluginList: seq<Choice<Uuid>>)
    ensures pluginList == SortedChoices(plugins, PluginName, PluginChoice)
    ensures |pluginList| == |plugins|
    ensures SortedBy(pluginList, Caption)
    ensures multiset(pluginList) == multiset(MapSeq(plugins, PluginChoice))
  {
    pluginList := SortedChoiceList(plugins, PluginName, PluginChoice);
    SortedChoicesProperties(plugins, PluginName, PluginChoice);
  }

  // ---------------------------------------------------------------------
  // Remove-services dialog: sorted by name, webservice entries left out.

  function BoardServiceName(s: BoardService): string
  {
    s.name
  }

  function NotWebservice(s: BoardService): bool
  {
    !IsWebserviceName(s.name)
  }

  function BoardServiceChoice(s: BoardService): Choice<Uuid>
  {
    Choice(s.uuid, s.name)
  }

  /** The services the dialog offers for removal. */
  function Removable(services: seq<BoardService>): seq<Choice<Uuid>>
  {
    MapSeq(Filter(SortByKey(services, BoardServiceName), NotWebservice), BoardServiceChoice)
  }

  /** `RemoveServicesView.get_initial`: sort, then append the non-webservice entries. */
  method RemoveServiceChoices(services: seq<BoardService>) returns (serviceList: seq<Choice<Uuid>>)
    ensures serviceList == Removable(services)
  {
    var sorted := SortByKey(services, BoardServiceName);
    serviceList := [];
    var i := 0;
    while i < |sorted|
      invariant 0 <= i <= |sorted|
      invariant serviceList == MapSeq(Filter(sorted[..i], NotWebservice), BoardServiceChoice)
    {
      var service := sorted[i];
      assert sorted[..i + 1] == sorted[..i] + [service];
      FilterSnoc(sorted[..i], service, NotWebservice);
      if service.name != "webservice" && service.name != "webservice_ssl" {
        MapSeqSnoc(Filter(sorted[..i], NotWebservice), service, BoardServiceChoice);
        serviceList := serviceList + [BoardServiceChoice(service)];
      }
      i := i + 1;
    }
    assert sorted[..i] == sorted;
  }

  /** The same test read off a choice: its caption is the service's name. */
  function NotWebserviceChoice(c: Choice<Uuid>): bool
  {
    !IsWebserviceName(c.caption)
  }

  /** The removable list is ordered by name and shows exactly the board's
      services other than the webservice entries, each as often as the board
      lists it. */
  lemma RemovableSpec(services: seq<BoardService>)
    ensures SortedBy(Removable(services), Caption)
    ensures forall c :: c in Removable(services) ==> !IsWebserviceName(c.caption)
    ensures forall s :: s in services && !IsWebserviceName(s.name) ==> BoardServiceChoice(s) in Removable(services)
    ensures forall c :: c in Removable(services) ==>
              exists s :: s in services && !IsWebserviceName(s.name) && c == BoardServiceChoice(s)
    ensures multiset(Removable(services)) == multiset(MapSeq(Filter(services, NotWebservice), BoardServiceChoice))
  {
    var sorted := SortByKey(services, BoardServiceName);
    var kept := Filter(sorted, NotWebservice);
    SortSorted(services, BoardServiceName);
    FilterSorted(sorted, BoardServiceName, NotWebservice);
    MapSorted(kept, BoardServiceName, BoardServiceChoice, Caption);
    SortMultiset(services, BoardServiceName);
    FilterMembers(sorted, NotWebservice);
    MapSeqMembers(kept, BoardServiceChoice);
    forall s | s in services && !IsWebserviceName(s.name)
      ensures BoardServiceChoice(s) in Removable(services)
    {
      assert s in multiset(services);
      assert s in sorted;
    }
    RemovableFromBoard(services);
    RemovableCounts(services);
  }

  /** Every removable entry is the choice of a non-webservice service of the board. */
  lemma RemovableFromBoard(services: seq<BoardService>)
    ensures forall c :: c in Removable(services) ==>
              exists s :: s in services && !IsWebserviceName(s.name) && c == BoardServiceChoice(s)
  {
    var sorted := SortByKey(services, BoardServiceName);
    var kept := Filter(sorted, NotWebservice);
    SortMultiset(services, BoardServiceName);
    FilterMembers(sorted, NotWebservice);
    MapSeqMembers(kept, BoardServiceChoice);
    forall c | c in Removable(services)
      ensures exists s :: s in services && !IsWebserviceName(s.name) && c == BoardServiceChoice(s)
    {
      var s :| s in kept && c == BoardServiceChoice(s);
      assert s in multiset(sorted);
    }
  }

  /** The removable list holds each non-webservice service's choice as often
      as the board lists the service. */
  lemma RemovableCounts(services: seq<BoardService>)
    ensures multiset(Removable(services)) == multiset(MapSeq(Filter(services, NotWebservice), BoardServiceChoice))
  {
    var sorted := SortByKey(services, BoardServiceName);
    var before, after := MapSeq(services, BoardServiceChoice), MapSeq(sorted, BoardServiceChoice);
    FilterMap(sorted, BoardServiceChoice, NotWebserviceChoice, NotWebservice);
    FilterMap(services, BoardServiceChoice, NotWebserviceChoice, NotWebservice);
    SortMapMultiset(services, BoardServiceName, BoardServiceChoice);
    FilterCount(after, NotWebserviceChoice);
    FilterCount(before, NotWebserviceChoice);
    assert multiset(Filter(after, NotWebserviceChoice)) == multiset(Filter(before, NotWebserviceChoice));
  }
}
