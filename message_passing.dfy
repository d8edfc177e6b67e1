/** `MessagePassingEnvironment`: the registry of named messages and its
    dispatcher. A frame starts with the message name; the converter
    registered under that name decodes the rest. */
module MessagePassing {
  import opened Types
  import opened Codec
  import opened MessageConverters

  /** The converter a frame goes to, and the reader positioned after the name. */
  datatype Dispatch = Dispatch(converter: MessageConverter, reader: Reader)

  /** The lookup half of `OnReceive`: read the leading name, find its converter.
      A frame that does not start with a string reads as the empty name. */
  function Route(registered: map<string, MessageConverter>, data: Frame): (r: Option<Dispatch>)
    ensures r.Some? ==> r.value.reader.Valid() && r.value.reader.data == data
    ensures r.Some? ==> r.value.converter in registered.Values
  {
    var name := ReadString(Open(data));
    if name.value in registered then Some(Dispatch(registered[name.value], name.rest)) else None
  }

  /** The handler calls `OnReceive` makes: one on a hit, none on a miss. */
  function DispatchCalls(registered: map<string, MessageConverter>, peer: PeerRef, data: Frame, flags: Flags)
    : (calls: seq<HandlerCall>)
    ensures |calls| == if Route(registered, data).Some? then 1 else 0
  {
    match Route(registered, data)
    case Some(d) => [Call(d.converter, peer, d.reader, flags).call]
    case None => []
  }

  /** A frame `[name][rest...]` goes to the converter registered under `name`,
      with the reader positioned just after the name; an unregistered name
      is dropped. */
  lemma NamedFrameRouting(registered: map<string, MessageConverter>, name: string, rest: Frame)
    ensures Route(registered, [TStr(name)] + rest)
         == if name in registered then Some(Dispatch(registered[name], Reader([TStr(name)] + rest, 1, false)))
            else None
  {
  }

  /** On a hit the registered handler runs exactly once, with the same peer
      and flags; on a miss nothing runs. */
  lemma DispatchHitOrDrop(registered: map<string, MessageConverter>, peer: PeerRef, name: string,
                          rest: Frame, flags: Flags)
    ensures var calls := DispatchCalls(registered, peer, [TStr(name)] + rest, flags);
      && (name !in registered ==> calls == [])
      && (name in registered ==>
            |calls| == 1 && calls[0].handler == registered[name].onReceive
            && calls[0].peer == peer && calls[0].flags == flags)
  {
    NamedFrameRouting(registered, name, rest);
  }

  /** A frame `[name][encoded v]` for a handler of `v`'s type delivers exactly
      `v` to that handler. */
  lemma NamedMessageRoundTrip(registered: map<string, MessageConverter>, peer: PeerRef, name: string,
                              v: Value, flags: Flags)
    requires name in registered && KindOf(v) == registered[name].messageKind
    ensures DispatchCalls(registered, peer, [TStr(name)] + Encode(v), flags)
         == [HandlerCall(registered[name].onReceive, peer, v, flags)]
  {
    var data := [TStr(name)] + Encode(v);
    NamedFrameRouting(registered, name, Encode(v));
    assert data[1..1 + |Encode(v)|] == Encode(v);
    CallDeliversEncoded(registered[name], peer, v, data, 1, flags);
  }

  /** Dispatch is always a direct call: the converter's queue changes nothing. */
  lemma DispatchIgnoresQueue(registered: map<string, MessageConverter>, name: string, q: Option<QueueRef>,
                             peer: PeerRef, data: Frame, flags: Flags)
    requires name in registered
    ensures DispatchCalls(registered[name := registered[name].(executionQueue := q)], peer, data, flags)
         == DispatchCalls(registered, peer, data, flags)
  {
  }

  class MessagePassingEnvironment {
    var registeredMessages: map<string, MessageConverter>
    /** Pending reply callbacks, keyed by correlation id. */
    var returningCallbacks: map<u32, CallbackRef>
    var returnCallCallbackIdGenerator: u32
    /** The handler calls made by dispatch, in order. */
    ghost var handlerCalls: seq<HandlerCall>

    constructor ()
      ensures registeredMessages == map[] && returningCallbacks == map[]
      ensures returnCallCallbackIdGenerator == 0 && handlerCalls == []
    {
      registeredMessages := map[];
      returningCallbacks := map[];
      returnCallCallbackIdGenerator := 0;
      handlerCalls := [];
    }

    /** Binds `name` to `converter`, replacing any earlier binding. */
    method RegisterMessage(name: string, converter: MessageConverter)
      modifies this`registeredMessages
      ensures registeredMessages == old(registeredMessages)[name := converter]
    {
      registeredMessages := registeredMessages[name := converter];
    }

    /** `OnReceive(peer, data, size, flags)`: never touches the registry. */
    method OnReceive(peer: PeerRef, data: Frame, flags: Flags)
      modifies this`handlerCalls
      ensures handlerCalls == old(handlerCalls) + DispatchCalls(registeredMessages, peer, data, flags)
    {
      var reader := Open(data);
      var name := ReadString(reader);
      reader := name.rest;
      if name.value in registeredMessages {
        var c := Call(registeredMessages[name.value], peer, reader, flags);
        handlerCalls := handlerCalls + [c.call];
      }
    }
  }
}
