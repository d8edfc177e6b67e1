/** `MessageConverterSpec<T>`: the decode-and-invoke handler bound to a
    message name. The handler pointer is `const` and set at construction,
    which the model gets for free: a converter is an immutable value. */
module MessageConverters {
  import opened Types
  import opened Codec

  /** A converter for messages of one type `messageKind`. `executionQueue` is
      carried as data only; nothing in `Call` looks at it. */
  datatype MessageConverter = MessageConverter(
    onReceive: HandlerRef,
    messageKind: Kind,
    executionQueue: Option<QueueRef>)

  /** One invocation `onReceive(peer, std::move(message), flags)`. */
  datatype HandlerCall = HandlerCall(handler: HandlerRef, peer: PeerRef, message: Value, flags: Flags)

  /** The handler call made and the reader after the message. */
  datatype CallResult = CallResult(call: HandlerCall, reader: Reader)

  /** `Call(peer, reader, flags)`: read one `T`, then call the handler once. */
  function Call(c: MessageConverter, peer: PeerRef, reader: Reader, flags: Flags): (r: CallResult)
    requires reader.Valid()
    ensures r.call.handler == c.onReceive && r.call.peer == peer && r.call.flags == flags
    ensures KindOf(r.call.message) == c.messageKind
    ensures Follows(reader, r.reader)
  {
    var m := ReadValue(reader, c.messageKind);
    CallResult(HandlerCall(c.onReceive, peer, m.value, flags), m.rest)
  }

  /** Over an encoded `v` the handler receives exactly `v`, and the reader stops
      right after that one value. */
  lemma CallDeliversEncoded(c: MessageConverter, peer: PeerRef, v: Value, data: Frame, p: nat, flags: Flags)
    requires KindOf(v) == c.messageKind && HoldsAt(data, p, Encode(v))
    ensures Call(c, peer, Reader(data, p, false), flags)
         == CallResult(HandlerCall(c.onReceive, peer, v, flags), Reader(data, p + |Encode(v)|, false))
  {
    ReadAfterEncode(v, data, p);
  }

  /** A call made through a reader opened on `data[p..]` is the call made at
      position `p` of the whole frame. */
  lemma CallShifted(c: MessageConverter, peer: PeerRef, data: Frame, p: nat, flags: Flags)
    requires p <= |data|
    ensures Call(c, peer, Open(data[p..]), flags).call == Call(c, peer, Reader(data, p, false), flags).call
  {
    ReadValueShifted(Reader(data, p, false), Open(data[p..]), p, c.messageKind);
  }

  /** A converter's queue has no bearing on what `Call` does. */
  lemma CallIgnoresQueue(c: MessageConverter, q: Option<QueueRef>, peer: PeerRef, reader: Reader, flags: Flags)
    requires reader.Valid()
    ensures Call(c.(executionQueue := q), peer, reader, flags) == Call(c, peer, reader, flags)
  {
  }
}
