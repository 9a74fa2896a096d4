/**
 * The listener registry the simulator inherits. Only the one event the
 * simulator emits ("tick") is modelled: a listener is an opaque identity,
 * and calling a listener is recorded in a trace of calls, each with the
 * arguments it was given.
 */
module Events {
  import opened Types

  type ListenerId = nat

  datatype Call = Call(listener: ListenerId, args: seq<BoidData>)

  /** The calls one emission makes: every listener once, in registration order. */
  function Deliveries(listeners: seq<ListenerId>, args: seq<BoidData>): (r: seq<Call>)
    ensures |r| == |listeners|
    ensures forall i :: 0 <= i < |r| ==> r[i].listener == listeners[i] && r[i].args == args
  {
    if |listeners| == 0 then
      []
    else
      Deliveries(listeners[..|listeners| - 1], args) + [Call(listeners[|listeners| - 1], args)]
  }

  class EventEmitter {
    /** The listeners registered for the event, in registration order. */
    var listeners: seq<ListenerId>
    /** Every listener call made so far, oldest first. */
    var calls: seq<Call>

    constructor()
      ensures listeners == [] && calls == []
    {
      listeners := [];
      calls := [];
    }

    /** Registers a listener after those already registered. */
    method On(listener: ListenerId)
      modifies this
      ensures listeners == old(listeners) + [listener]
      ensures calls == old(calls)
    {
      listeners := listeners + [listener];
    }

    /**
     * Calls every registered listener with args, in registration order, and
     * answers whether the event had any listener at all.
     */
    method Emit(args: seq<BoidData>) returns (delivered: bool)
      modifies this
      ensures delivered <==> |listeners| > 0
      ensures listeners == old(listeners)
      ensures calls == old(calls) + Deliveries(listeners, args)
    {
      if |listeners| == 0 {
        return false;
      }
      for i := 0 to |listeners|
        invariant listeners == old(listeners)
        invariant calls == old(calls) + Deliveries(listeners[..i], args)
      {
        assert listeners[..i + 1][..i] == listeners[..i];
        calls := calls + [Call(listeners[i], args)];
      }
      assert listeners[..|listeners|] == listeners;
      return true;
    }
  }

  /** One emission reaches each listener as often as it was registered. */
  lemma DeliveriesCount(listeners: seq<ListenerId>, args: seq<BoidData>, l: ListenerId)
    ensures |set i | 0 <= i < |Deliveries(listeners, args)| && Deliveries(listeners, args)[i].listener == l|
         == |set i | 0 <= i < |listeners| && listeners[i] == l|
  {
    var d := Deliveries(listeners, args);
    assert (set i | 0 <= i < |d| && d[i].listener == l) == (set i | 0 <= i < |listeners| && listeners[i] == l);
  }
}
