/**
 * The message router: validates a raw message and dispatches it as an event named after
 * its type, then as the wildcard event `*`. Listeners are handler ids registered per event
 * name in registration order, as an event emitter keeps them.
 */
module Router {
  import Json
  import Seqs
  import opened Messages

  type HandlerId = nat

  /** The listener registry: event name to handlers, in registration order. */
  type Listeners = map<string, seq<HandlerId>>

  const Wildcard := "*"
  const ErrorName := "error"

  /** What a handler is called with: the parsed message, or the `Invalid message` error. */
  datatype Payload = Delivered(message: Message) | InvalidMessage

  datatype Invocation = Invocation(handler: HandlerId, payload: Payload)

  /**
   * What `route` does: the handler calls it makes, in order, or the error it throws
   * because an `error` event had no listener.
   */
  datatype RouteResult = Dispatched(calls: seq<Invocation>) | Unhandled

  function ListenersOf(listeners: Listeners, name: string): seq<HandlerId>
  {
    if name in listeners then listeners[name] else []
  }

  /** `emit(name, payload)`: every listener of `name`, in registration order, with the payload. */
  function Emit(listeners: Listeners, name: string, payload: Payload): (r: seq<Invocation>)
    ensures |r| == |ListenersOf(listeners, name)|
    ensures forall i :: 0 <= i < |r| ==> r[i] == Invocation(ListenersOf(listeners, name)[i], payload)
  {
    var hs := ListenersOf(listeners, name);
    seq(|hs|, i requires 0 <= i < |hs| => Invocation(hs[i], payload))
  }

  /**
   * `route(raw)`: an invalid message emits `error` (which throws when nobody listens);
   * a valid one emits its type event and then `*`.
   */
  function Route(listeners: Listeners, raw: Json.Value, isDateTime: string -> bool): (r: RouteResult)
    ensures r.Unhandled? <==> ParseMessage(raw, isDateTime).None? && ListenersOf(listeners, ErrorName) == []
    ensures r.Dispatched? && ParseMessage(raw, isDateTime).None? ==>
              |r.calls| == |ListenersOf(listeners, ErrorName)|
    ensures r.Dispatched? && ParseMessage(raw, isDateTime).Some? ==>
              var name := TypeName(ParseMessage(raw, isDateTime).value.kind);
              |r.calls| == |ListenersOf(listeners, name)| + |ListenersOf(listeners, Wildcard)|
  {
    match ParseMessage(raw, isDateTime)
    case None =>
      if ListenersOf(listeners, ErrorName) == [] then Unhandled
      else Dispatched(Emit(listeners, ErrorName, InvalidMessage))
    case Some(m) =>
      Dispatched(Emit(listeners, TypeName(m.kind), Delivered(m)) + Emit(listeners, Wildcard, Delivered(m)))
  }

  /** `on(name, h)`: the handler is appended to the event's listeners. */
  function Added(listeners: Listeners, name: string, h: HandlerId): (r: Listeners)
    ensures ListenersOf(r, name) == ListenersOf(listeners, name) + [h]
    ensures forall n :: n != name ==> ListenersOf(r, n) == ListenersOf(listeners, n)
  {
    listeners[name := ListenersOf(listeners, name) + [h]]
  }

  /** The index of the last occurrence of `h`, as `off` searches from the end. */
  function LastIndex(hs: seq<HandlerId>, h: HandlerId): (i: nat)
    requires h in hs
    ensures i < |hs| && hs[i] == h
    ensures forall j :: i < j < |hs| ==> hs[j] != h
  {
    if hs[|hs| - 1] == h then |hs| - 1 else LastIndex(hs[..|hs| - 1], h)
  }

  /** Removing the most recently registered instance of `h`; a handler not listed leaves the list as it is. */
  function RemoveLast(hs: seq<HandlerId>, h: HandlerId): seq<HandlerId>
  {
    if h in hs then
      var i := LastIndex(hs, h);
      hs[..i] + hs[i + 1..]
    else hs
  }

  /** `off(name, h)`: one instance of the handler leaves the event's listeners; an emptied event is deleted. */
  function Removed(listeners: Listeners, name: string, h: HandlerId): (r: Listeners)
    ensures ListenersOf(r, name) == RemoveLast(ListenersOf(listeners, name), h)
    ensures forall n :: n != name ==> ListenersOf(r, n) == ListenersOf(listeners, n)
    ensures name in r ==> r[name] != []
  {
    var rest := RemoveLast(ListenersOf(listeners, name), h);
    if rest == [] then listeners - {name} else listeners[name := rest]
  }

  /** The handlers a dispatch calls, in order. */
  function Called(result: RouteResult): seq<HandlerId>
  {
    if result.Unhandled? then [] else seq(|result.calls|, i requires 0 <= i < |result.calls| => result.calls[i].handler)
  }

  // ---------------------------------------------------------------------------------
  // Properties.
  // ---------------------------------------------------------------------------------

  /** Removing a handler that is listed cuts out the one instance at its last index. */
  lemma RemoveLastCuts(hs: seq<HandlerId>, h: HandlerId)
    requires h in hs
    ensures multiset(RemoveLast(hs, h)) == multiset(hs) - multiset{h}
    ensures |RemoveLast(hs, h)| == |hs| - 1
  {
    var i := LastIndex(hs, h);
    var before, after := hs[..i], hs[i + 1..];
    assert hs == before + [h] + after;
    Seqs.MultisetCut(before, h, after);
  }

  /** `off` removes exactly one instance of a registered handler and keeps the others in order. */
  lemma RemoveLastRemovesOne(hs: seq<HandlerId>, h: HandlerId)
    ensures multiset(RemoveLast(hs, h)) == multiset(hs) - multiset{h}
    ensures h in hs ==> |RemoveLast(hs, h)| == |hs| - 1
  {
    if h in hs {
      RemoveLastCuts(hs, h);
    } else {
      assert multiset(hs)[h] == 0;
    }
  }

  /** After `off` a handler registered (at most) once for an event is no longer among its listeners. */
  lemma OffRemovesHandler(listeners: Listeners, name: string, h: HandlerId)
    requires multiset(ListenersOf(listeners, name))[h] <= 1
    ensures h !in ListenersOf(Removed(listeners, name, h), name)
  {
    RemoveLastRemovesOne(ListenersOf(listeners, name), h);
    var r := ListenersOf(Removed(listeners, name, h), name);
    assert h !in multiset(r);
  }

  /** Invalid input calls only `error` listeners, each once with the error, or throws when there are none. */
  lemma InvalidEmitsOnlyError(listeners: Listeners, raw: Json.Value, isDateTime: string -> bool)
    requires !ValidMessage(raw, isDateTime)
    ensures var r := Route(listeners, raw, isDateTime);
      (ListenersOf(listeners, ErrorName) == [] <==> r.Unhandled?) &&
      (r.Dispatched? ==> Called(r) == ListenersOf(listeners, ErrorName) &&
                         forall i :: 0 <= i < |r.calls| ==> r.calls[i].payload == InvalidMessage)
  {
  }

  /**
   * Valid input calls the type's listeners and then the wildcard listeners, in registration
   * order, each with the parsed message.
   */
  lemma ValidDispatchesTypeThenWildcard(listeners: Listeners, raw: Json.Value, isDateTime: string -> bool)
    requires ValidMessage(raw, isDateTime)
    ensures var r := Route(listeners, raw, isDateTime);
      var m := ParseMessage(raw, isDateTime).value;
      r.Dispatched? &&
      Called(r) == ListenersOf(listeners, TypeName(m.kind)) + ListenersOf(listeners, Wildcard) &&
      forall i :: 0 <= i < |r.calls| ==> r.calls[i].payload == Delivered(m)
  {
  }

  /** A handler listening neither to a message's type nor to `*` is not called for that message. */
  lemma OtherTypeNotCalled(listeners: Listeners, raw: Json.Value, isDateTime: string -> bool, h: HandlerId)
    requires ValidMessage(raw, isDateTime)
    requires h !in ListenersOf(listeners, raw.fields["type"].s) && h !in ListenersOf(listeners, Wildcard)
    ensures h !in Called(Route(listeners, raw, isDateTime))
  {
    ValidDispatchesTypeThenWildcard(listeners, raw, isDateTime);
  }

  /** One distinct handler per type, nothing on `*`: a message of each type reaches its own handler exactly once. */
  lemma EachTypeReachesItsHandler(handlerOf: MessageType -> HandlerId, m: Message, isDateTime: string -> bool)
    requires forall a, b :: a != b ==> handlerOf(a) != handlerOf(b)
    requires isDateTime(m.timestamp)
    ensures var listeners := map t | t in TypeNames :: [handlerOf(TypeFromName(t).value)];
      Called(Route(listeners, EncodeMessage(m), isDateTime)) == [handlerOf(m.kind)]
  {
    var listeners := map t | t in TypeNames :: [handlerOf(TypeFromName(t).value)];
    MessageRoundTrip(m, isDateTime);
    TypeNamesRoundTrip(m.kind);
    assert Wildcard !in TypeNames;
    ValidDispatchesTypeThenWildcard(listeners, EncodeMessage(m), isDateTime);
  }

  /**
   * After `offType(t, h)` for a handler registered once for `t` and not for `*`, routing a
   * message of type `t` no longer calls it.
   */
  lemma OffTypeStopsCalls(listeners: Listeners, t: MessageType, h: HandlerId, m: Message, isDateTime: string -> bool)
    requires m.kind == t && isDateTime(m.timestamp)
    requires multiset(ListenersOf(listeners, TypeName(t)))[h] <= 1 && h !in ListenersOf(listeners, Wildcard)
    ensures h !in Called(Route(Removed(listeners, TypeName(t), h), EncodeMessage(m), isDateTime))
  {
    var after := Removed(listeners, TypeName(t), h);
    OffRemovesHandler(listeners, TypeName(t), h);
    assert Wildcard != TypeName(t) by { TypeNamesRoundTrip(t); }
    MessageRoundTrip(m, isDateTime);
    ValidDispatchesTypeThenWildcard(after, EncodeMessage(m), isDateTime);
  }

  /** `MessageRouter`: an event emitter whose listener registry changes in place. */
  class MessageRouter {
    var listeners: Listeners

    constructor ()
      ensures listeners == map[]
    {
      listeners := map[];
    }

    /** `on(name, h)`. */
    method On(name: string, h: HandlerId)
      modifies this
      ensures listeners == Added(old(listeners), name, h)
    {
      listeners := listeners[name := ListenersOf(listeners, name) + [h]];
    }

    /** `off(name, h)`. */
    method Off(name: string, h: HandlerId)
      modifies this
      ensures listeners == Removed(old(listeners), name, h)
    {
      var rest := RemoveLast(ListenersOf(listeners, name), h);
      if rest == [] {
        listeners := listeners - {name};
      } else {
        listeners := listeners[name := rest];
      }
    }

    /** `onType(type, h)`. */
    method OnType(t: MessageType, h: HandlerId)
      modifies this
      ensures listeners == Added(old(listeners), TypeName(t), h)
    {
      On(TypeName(t), h);
    }

    /** `offType(type, h)`. */
    method OffType(t: MessageType, h: HandlerId)
      modifies this
      ensures listeners == Removed(old(listeners), TypeName(t), h)
    {
      Off(TypeName(t), h);
    }

    /** `route(raw)`: the registry is only read. */
    method Dispatch(raw: Json.Value, isDateTime: string -> bool) returns (r: RouteResult)
      ensures r == Route(listeners, raw, isDateTime)
    {
      r := Route(listeners, raw, isDateTime);
    }
  }
}
