/**
 * The webservice forms (iotronic_ui/iot/webservices/forms.py): expose one
 * webservice on a board, unexpose the selected ones.
 */
module WebserviceForms {
  import opened Entities
  import opened Seqs
  import opened IotronicApi
  import opened Dispatch

  /** `ExposeWebserviceForm.handle`: one `webservice_expose` with the board,
      the name, the local port and the secure flag as entered; True when the
      call returns (`reply` is its outcome), None when it raises. */
  method ExposeHandle(board: Uuid, wsName: string, port: int, secure: bool, reply: Option<Value>)
    returns (done: Option<bool>, call: RemoteCall)
    ensures call == WebserviceExpose(board, wsName, port, secure)
    ensures done == (if reply.Some? then Some(true) else None)
  {
    call := WebserviceExpose(board, wsName, port, secure);
    if reply.Some? {
      done := Some(true);
    } else {
      done := None;
    }
  }

  function Unexpose(ws: Uuid): RemoteCall
  {
    WebserviceUnexpose(ws)
  }

  /** `UnexposeWebserviceForm.handle`: one `webservice_unexpose` per selected
      webservice, in order, whatever the earlier ones did; True iff all of
      them returned. */
  method UnexposeHandle(selection: seq<Uuid>, replies: seq<Option<Value>>)
    returns (done: bool, calls: seq<RemoteCall>)
    requires |replies| == |selection|
    ensures |calls| == |selection|
    ensures forall i :: 0 <= i < |selection| ==> calls[i] == WebserviceUnexpose(selection[i])
    ensures done <==> |selection| > 0 && AllReturned(replies)
  {
    var result;
    result, calls := DirectDispatch(selection, replies, Unexpose);
    assert forall i :: 0 <= i < |selection| ==> calls[i] == Unexpose(selection[i]);
    done := result.Some?;
  }
}
