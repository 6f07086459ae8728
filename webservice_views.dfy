/**
 * The webservice views (iotronic_ui/iot/webservices/views.py): the index
 * listing, which rewrites each enabled-webservice record in place (the
 * board's name, the uuid of its last webservice, its service URLs), and the
 * unexpose dialog's choice list.
 */
module WebserviceViews {
  import opened Entities
  import opened Seqs
  import opened Sorting
  import opened Choices

  /** The URL of one exposed webservice: an https URL whose host is the
      webservice's name, the board's DNS name and the zone, separated by dots. */
  function ServiceUrl(wsName: string, dns: string, zone: string): (url: string)
    ensures |url| == |wsName| + |dns| + |zone| + 10
    ensures url[..8] == "https://"
    ensures url[8..8 + |wsName|] == wsName && url[8 + |wsName|] == '.'
    ensures url[|url| - |zone|..] == zone && url[|url| - |zone| - 1] == '.'
    ensures url[9 + |wsName|..|url| - |zone| - 1] == dns
  {
    "https://" + wsName + "." + dns + "." + zone
  }

  function OnSameBoard(boardUuid: Uuid): Webservice -> bool
  {
    (ws: Webservice) => ws.boardUuid == boardUuid
  }

  function UrlOf(rec: EnabledWebservice): Webservice -> string
  {
    (ws: Webservice) => ServiceUrl(ws.name, rec.dns, rec.zone)
  }

  /** One URL per webservice of the record's board, in listing order. */
  function UrlsFor(rec: EnabledWebservice, webservices: seq<Webservice>): seq<string>
  {
    MapSeq(Filter(webservices, OnSameBoard(rec.boardUuid)), UrlOf(rec))
  }

  /** The uuid of the last webservice of the board; `uuid` when it has none. */
  function LastMatchUuid(uuid: Uuid, boardUuid: Uuid, webservices: seq<Webservice>): Uuid
  {
    var matching := Filter(webservices, OnSameBoard(boardUuid));
    if matching == [] then uuid else matching[|matching| - 1].uuid
  }

  /** A URL is listed iff it is the URL of a webservice on the record's board. */
  lemma UrlsForMembers(rec: EnabledWebservice, webservices: seq<Webservice>)
    ensures forall url :: url in UrlsFor(rec, webservices) <==>
              exists ws :: ws in webservices && ws.boardUuid == rec.boardUuid && url == ServiceUrl(ws.name, rec.dns, rec.zone)
  {
    var matching := Filter(webservices, OnSameBoard(rec.boardUuid));
    FilterMembers(webservices, OnSameBoard(rec.boardUuid));
    MapSeqMembers(matching, UrlOf(rec));
    forall url | exists ws :: ws in webservices && ws.boardUuid == rec.boardUuid && url == ServiceUrl(ws.name, rec.dns, rec.zone)
      ensures url in UrlsFor(rec, webservices)
    {
      var ws :| ws in webservices && ws.boardUuid == rec.boardUuid && url == ServiceUrl(ws.name, rec.dns, rec.zone);
      assert ws in matching;
      assert UrlOf(rec)(ws) == url;
    }
  }

  /** The uuid is that of a webservice on the board with no other webservice
      of the board after it; it is left alone when the board has none. */
  lemma {:induction false} LastMatchUuidSpec(uuid: Uuid, boardUuid: Uuid, webservices: seq<Webservice>)
    ensures (forall k :: 0 <= k < |webservices| ==> webservices[k].boardUuid != boardUuid) ==>
              LastMatchUuid(uuid, boardUuid, webservices) == uuid
    ensures (exists k :: 0 <= k < |webservices| && webservices[k].boardUuid == boardUuid) ==>
              exists k :: 0 <= k < |webservices| && webservices[k].boardUuid == boardUuid &&
                LastMatchUuid(uuid, boardUuid, webservices) == webservices[k].uuid &&
                forall m :: k < m < |webservices| ==> webservices[m].boardUuid != boardUuid
    decreases |webservices|
  {
    if webservices != [] {
      var init := webservices[..|webservices| - 1];
      var last := webservices[|webservices| - 1];
      assert webservices == init + [last];
      FilterSnoc(init, last, OnSameBoard(boardUuid));
      LastMatchUuidSpec(uuid, boardUuid, init);
      if last.boardUuid != boardUuid {
        assert LastMatchUuid(uuid, boardUuid, webservices) == LastMatchUuid(uuid, boardUuid, init);
        if exists k :: 0 <= k < |webservices| && webservices[k].boardUuid == boardUuid {
          var k :| 0 <= k < |webservices| && webservices[k].boardUuid == boardUuid;
          assert init[k] == webservices[k];
        }
        if (forall k :: 0 <= k < |webservices| ==> webservices[k].boardUuid != boardUuid) {
          assert forall k :: 0 <= k < |init| ==> init[k] == webservices[k];
        }
      } else {
        assert LastMatchUuid(uuid, boardUuid, webservices) == last.uuid;
      }
    }
  }

  /** A record as the index view leaves it. */
  function Annotated(rec: EnabledWebservice, webservices: seq<Webservice>, boardName: string): EnabledWebservice
  {
    rec.(uuid := LastMatchUuid(rec.uuid, rec.boardUuid, webservices),
         name := boardName,
         webservices := UrlsFor(rec, webservices))
  }

  /** The loop of `IndexView.get_data`, updating each enabled record in place.
      `boardName` is the board lookup; when it raises (None) the view raises
      (`ok` is false). */
  method AnnotateEnabled(records: array<EnabledWebservice>, webservices: seq<Webservice>, boardName: Uuid -> Option<string>)
    returns (ok: bool)
    modifies records
    ensures ok <==> forall k :: 0 <= k < records.Length ==> boardName(old(records[k]).boardUuid).Some?
    ensures ok ==> forall k :: 0 <= k < records.Length ==>
              records[k] == Annotated(old(records[k]), webservices, boardName(old(records[k]).boardUuid).value)
  {
    var i := 0;
    while i < records.Length
      invariant 0 <= i <= records.Length
      invariant forall k :: 0 <= k < i ==> boardName(old(records[k]).boardUuid).Some?
      invariant forall k :: 0 <= k < i ==>
                  records[k] == Annotated(old(records[k]), webservices, boardName(old(records[k]).boardUuid).value)
      invariant forall k :: i <= k < records.Length ==> records[k] == old(records[k])
    {
      var wsList: seq<string> := [];
      var j := 0;
      while j < |webservices|
        invariant 0 <= j <= |webservices|
        invariant forall k :: 0 <= k < i ==>
                    records[k] == Annotated(old(records[k]), webservices, boardName(old(records[k]).boardUuid).value)
        invariant forall k :: i < k < records.Length ==> records[k] == old(records[k])
        invariant records[i] == old(records[i]).(uuid := LastMatchUuid(old(records[i]).uuid, old(records[i]).boardUuid, webservices[..j]))
        invariant wsList == UrlsFor(old(records[i]), webservices[..j])
      {
        var ws := webservices[j];
        assert webservices[..j + 1] == webservices[..j] + [ws];
        FilterSnoc(webservices[..j], ws, OnSameBoard(old(records[i]).boardUuid));
        if records[i].boardUuid == ws.boardUuid {
          MapSeqSnoc(Filter(webservices[..j], OnSameBoard(old(records[i]).boardUuid)), ws, UrlOf(old(records[i])));
          var serviceUrl := "https://" + ws.name + "." + records[i].dns + "." + records[i].zone;
          wsList := wsList + [serviceUrl];
          records[i] := records[i].(uuid := ws.uuid);
        }
        j := j + 1;
      }
      assert webservices[..j] == webservices;
      var board := boardName(records[i].boardUuid);
      if board.None? {
        return false;
      }
      records[i] := records[i].(name := board.value, webservices := wsList);
      i := i + 1;
    }
    return true;
  }

  /** `IndexView.get_data`: the enabled list, rewritten, in its own order.
      Every policy branch lists the same way; a listing that raises leaves
      the list empty. None when a board lookup raises out of the view. */
  method IndexGetData(webservices: Option<seq<Webservice>>, enabled: Option<seq<EnabledWebservice>>, boardName: Uuid -> Option<string>)
    returns (rows: Option<seq<EnabledWebservice>>)
    ensures webservices.None? || enabled.None? ==> rows == Some([])
    ensures webservices.Some? && enabled.Some? ==>
              (rows.Some? <==> forall rec :: rec in enabled.value ==> boardName(rec.boardUuid).Some?)
    ensures webservices.Some? && enabled.Some? && rows.Some? ==>
              |rows.value| == |enabled.value| &&
              forall k :: 0 <= k < |rows.value| ==>
                rows.value[k] == Annotated(enabled.value[k], webservices.value, boardName(enabled.value[k].boardUuid).value)
  {
    var listed: seq<Webservice> := [];
    var enabledList: seq<EnabledWebservice> := [];
    if webservices.Some? {
      listed := webservices.value;
      if enabled.Some? {
        enabledList := enabled.value;
      }
    }
    var arr := new EnabledWebservice[|enabledList|](k requires 0 <= k < |enabledList| => enabledList[k]);
    assert arr[..] == enabledList;
    var ok := AnnotateEnabled(arr, listed, boardName);
    if !ok {
      ghost var k :| 0 <= k < arr.Length && !boardName(enabledList[k].boardUuid).Some?;
      assert enabledList[k] in enabledList;
      return None;
    }
    forall rec | rec in enabledList
      ensures boardName(rec.boardUuid).Some?
    {
      var k :| 0 <= k < |enabledList| && enabledList[k] == rec;
    }
    assert webservices.None? || enabled.None? ==> arr[..] == [];
    return Some(arr[..]);
  }

  function WebserviceName(ws: Webservice): string
  {
    ws.name
  }

  function WebserviceChoice(ws: Webservice): Choice<Uuid>
  {
    Choice(ws.uuid, ws.name)
  }

  /** What the unexpose dialog starts from. */
  datatype UnexposeInitial = UnexposeInitial(uuid: Uuid, name: string, wsOnboard: seq<Choice<Uuid>>)

  /** `UnexposeView.get_initial`: the board's uuid and name, and one
      `(uuid, name)` per webservice on the board, ordered by name. */
  method UnexposeGetInitial(board: Board, onBoard: seq<Webservice>) returns (initial: UnexposeInitial)
    ensures initial.uuid == board.uuid && initial.name == board.name
    ensures initial.wsOnboard == SortedChoices(onBoard, WebserviceName, WebserviceChoice)
    ensures |initial.wsOnboard| == |onBoard|
    ensures SortedBy(initial.wsOnboard, Caption)
    ensures multiset(initial.wsOnboard) == multiset(MapSeq(onBoard, WebserviceChoice))
  {
    var wsOnboardList := SortedChoiceList(onBoard, WebserviceName, WebserviceChoice);
    SortedChoicesProperties(onBoard, WebserviceName, WebserviceChoice);
    initial := UnexposeInitial(board.uuid, board.name, wsOnboardList);
  }
}
