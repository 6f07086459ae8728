/**
 * The multi-target loop shared by the dashboard's `handle` methods.
 *
 * Each selected key gets one remote call. A failing call is reported and
 * the loop goes on. A counter of successes decides the result: the form
 * returns as soon as the counter, before the increment, equals
 * `len(selection) - 1`. Because the counter only advances on success,
 * that moment comes only at the last item and only when every earlier item
 * succeeded, so the form returns a result exactly when every selected item
 * succeeded, and `None` otherwise (also for an empty selection).
 *
 * Some forms first look the key up among the field's choices (stopping at
 * the first match) and make no call for a key that is not offered.
 *
 * The outcome of each call is an oracle: `replies[i]` is what the call for
 * the i-th selected item returns, `None` when it raises.
 */
module Dispatch {
  import opened Entities
  import opened Seqs

  /** `key` is the value of one of the choices. */
  predicate Resolves(choices: seq<Choice<Uuid>>, key: Uuid)
  {
    exists j :: 0 <= j < |choices| && choices[j].key == key
  }

  /** The test "is offered among `choices`". */
  function ResolvesIn(choices: seq<Choice<Uuid>>): Uuid -> bool
  {
    key => Resolves(choices, key)
  }

  /** The selected keys that get a call, in selection order. */
  function ResolvedItems(selection: seq<Uuid>, choices: seq<Choice<Uuid>>): seq<Uuid>
  {
    Filter(selection, ResolvesIn(choices))
  }

  /** Every selected item got a call and the call returned. */
  predicate AllSucceeded<R>(selection: seq<Uuid>, choices: seq<Choice<Uuid>>, replies: seq<Option<R>>)
    requires |replies| == |selection|
  {
    forall i :: 0 <= i < |selection| ==> Resolves(choices, selection[i]) && replies[i].Some?
  }

  /** Every call returned. */
  predicate AllReturned<R>(replies: seq<Option<R>>)
  {
    forall i :: 0 <= i < |replies| ==> replies[i].Some?
  }

  /** The loop without a lookup: one call per selected key. */
  method DirectDispatch<C, R>(selection: seq<Uuid>, replies: seq<Option<R>>, call: Uuid -> C)
    returns (result: Option<R>, calls: seq<C>)
    requires |replies| == |selection|
    ensures calls == MapSeq(selection, call)
    ensures result.Some? <==> |selection| > 0 && AllReturned(replies)
    ensures result.Some? ==> result == replies[|selection| - 1]
  {
    var counter := 0;
    calls := [];
    var i := 0;
    while i < |selection|
      invariant 0 <= counter <= i <= |selection|
      invariant calls == MapSeq(selection[..i], call)
      invariant counter == i <==> AllReturned(replies[..i])
      invariant |selection| > 0 ==> counter < |selection|
    {
      calls := calls + [call(selection[i])];
      assert selection[..i + 1] == selection[..i] + [selection[i]];
      assert replies[..i + 1] == replies[..i] + [replies[i]];
      var reply := replies[i];
      if reply.Some? {
        if counter != |selection| - 1 {
          counter := counter + 1;
        } else {
          assert selection[..i + 1] == selection;
          assert replies[..i + 1] == replies;
          return reply, calls;
        }
      }
      i := i + 1;
    }
    assert selection[..i] == selection;
    assert replies[..i] == replies;
    return None, calls;
  }

  /** The loop with a lookup: a selected key gets a call only when a choice
      carries it, and the scan of the choices stops at the first such choice. */
  method ResolvingDispatch<C, R>(selection: seq<Uuid>, choices: seq<Choice<Uuid>>, replies: seq<Option<R>>, call: Uuid -> C)
    returns (result: Option<R>, calls: seq<C>)
    requires |replies| == |selection|
    ensures calls == MapSeq(ResolvedItems(selection, choices), call)
    ensures result.Some? <==> |selection| > 0 && AllSucceeded(selection, choices, replies)
    ensures result.Some? ==> result == replies[|selection| - 1]
  {
    var counter := 0;
    calls := [];
    var i := 0;
    while i < |selection|
      invariant 0 <= counter <= i <= |selection|
      invariant calls == MapSeq(ResolvedItems(selection[..i], choices), call)
      invariant counter == i <==> AllSucceeded(selection[..i], choices, replies[..i])
      invariant |selection| > 0 ==> counter < |selection|
    {
      var board := selection[i];
      assert selection[..i + 1] == selection[..i] + [board];
      assert replies[..i + 1] == replies[..i] + [replies[i]];
      FilterSnoc(selection[..i], board, ResolvesIn(choices));
      var j := 0;
      while j < |choices|
        invariant 0 <= j <= |choices|
        invariant forall m :: 0 <= m < j ==> choices[m].key != board
      {
        var key := choices[j].key;
        if key == board {
          calls := calls + [call(key)];
          var reply := replies[i];
          if reply.Some? {
            if counter != |selection| - 1 {
              counter := counter + 1;
            } else {
              assert selection[..i + 1] == selection;
              assert replies[..i + 1] == replies;
              return reply, calls;
            }
          }
          break;
        }
        j := j + 1;
      }
      i := i + 1;
    }
    assert selection[..i] == selection;
    assert replies[..i] == replies;
    return None, calls;
  }
}
