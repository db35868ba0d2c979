/** The publish/subscribe bus of src/core/event-bus.ts: a map from event name
    to the ordered list of listeners registered for it.

    A listener is a closure in the source. Here a listener is an opaque value
    of type `L` compared by identity (`===`), and `Emit` returns the sequence
    of invocations it performs, in order; the caller carries out what each
    invoked listener does. */
module Events {
  import opened Wrappers
  import opened Lists

  /** One listener invocation: who is called and with which arguments. */
  datatype Call<L, A> = Call(listener: L, args: A)

  /** The message of the error `off` throws for an unknown event. */
  function NoSuchEvent(event: string): string
  {
    "Нет события: " + event
  }

  class EventBus<L(==)> {
    var listeners: map<string, seq<L>>

    constructor ()
      ensures listeners == map[]
    {
      listeners := map[];
    }

    /** The list `emit` walks: absent events have none. */
    function Listeners(event: string): seq<L>
      reads this
    {
      if event in listeners then listeners[event] else []
    }

    /** `on`: create the list if needed, then append the callback. */
    method On(event: string, callback: L)
      modifies this
      ensures listeners == old(listeners)[event := old(Listeners(event)) + [callback]]
    {
      if event !in listeners {
        listeners := listeners[event := []];
      }
      listeners := listeners[event := listeners[event] + [callback]];
    }

    /** `off`: throws for an event that was never registered, otherwise
        drops every occurrence of the callback. */
    method Off(event: string, callback: L) returns (outcome: Outcome<string>)
      modifies this
      ensures event !in old(listeners) ==> outcome == Fail(NoSuchEvent(event)) && listeners == old(listeners)
      ensures event in old(listeners) ==>
        outcome == Pass && listeners == old(listeners)[event := Without(old(listeners)[event], callback)]
    {
      if event !in listeners {
        return Fail(NoSuchEvent(event));
      }
      listeners := listeners[event := Without(listeners[event], callback)];
      outcome := Pass;
    }

    /** `emit`: every listener of the event, in registration order, each
        with the same arguments; no listeners, no calls. */
    method Emit<A>(event: string, args: A) returns (calls: seq<Call<L, A>>)
      ensures event !in listeners ==> calls == []
      ensures |calls| == |Listeners(event)|
      ensures forall i :: 0 <= i < |calls| ==> calls[i] == Call(Listeners(event)[i], args)
    {
      if event !in listeners {
        return [];
      }
      var list := listeners[event];
      calls := [];
      var i := 0;
      while i < |list|
        invariant 0 <= i <= |list|
        invariant |calls| == i
        invariant forall j :: 0 <= j < i ==> calls[j] == Call(list[j], args)
      {
        calls := calls + [Call(list[i], args)];
        i := i + 1;
      }
    }
  }

  /** A listener runs once per registration: the invocations `emit` makes of
      a callback are exactly as many as the times it occurs in the list. */
  lemma {:induction false} RunsPerRegistration<L, A>(calls: seq<Call<L, A>>, list: seq<L>, args: A, callback: L)
    requires |calls| == |list|
    requires forall i :: 0 <= i < |calls| ==> calls[i] == Call(list[i], args)
    ensures Occurrences(calls, Call(callback, args)) == Occurrences(list, callback)
    decreases |list|
  {
    if |list| > 0 {
      RunsPerRegistration(calls[1..], list[1..], args, callback);
    }
  }

  /** No de-duplication: registering the same callback twice adds two
      occurrences, hence two invocations per `emit`. */
  lemma DoubleRegistration<L>(before: seq<L>, callback: L)
    ensures Occurrences(before + [callback] + [callback], callback) == Occurrences(before, callback) + 2
  {
    OccurrencesAppend(before, [callback], callback);
    OccurrencesAppend(before + [callback], [callback], callback);
  }

  /** After `off`, the callback is gone from the list, every other listener
      keeps its multiplicity, and the survivors keep their relative order
      (filtering distributes over concatenation). */
  lemma OffRemovesOnly<L>(list: seq<L>, callback: L, other: L, front: seq<L>, back: seq<L>)
    requires list == front + back
    ensures callback !in Without(list, callback)
    ensures other != callback ==> Occurrences(Without(list, callback), other) == Occurrences(list, other)
    ensures Without(list, callback) == Without(front, callback) + Without(back, callback)
  {
    WithoutCounts(list, callback, other);
    OccurrencesZero(Without(list, callback), callback);
    WithoutAppend(front, back, callback);
  }
}
