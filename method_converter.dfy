/** `MessageNetworkAwareMethodInvocationConverterSpec<Tclass, Targ>`: the
    stub that turns an RMI frame into one call of a member function. The
    member pointer is fixed at construction; a converter is an immutable
    value. */
module MethodInvocationConverters {
  import opened Types
  import opened Codec

  /** A converter for a member function taking one `Targ` of kind `argKind`.
      `executionQueue` is read by the dispatcher, never by `Call`. */
  datatype MethodConverter = MethodConverter(
    onReceive: MemberRef,
    argKind: Kind,
    executionQueue: Option<QueueRef>)

  /** One invocation `(ptr.get()->*onReceive)(peer, flags, message)`. */
  datatype MemberCall = MemberCall(member: MemberRef, target: Instance, peer: PeerRef, flags: Flags, message: Value)

  /** The member call made and the reader after the argument. */
  datatype CallResult = CallResult(call: MemberCall, reader: Reader)

  /** `Call(objectPtr, peer, reader, flags)`: cast `objectPtr` to the class
      (the cast leaves the pointer as it is), read one `Targ`, call the
      member function on that object once. */
  function Call(c: MethodConverter, objectPtr: Instance, peer: PeerRef, reader: Reader, flags: Flags): (r: CallResult)
    requires reader.Valid()
    ensures r.call.member == c.onReceive && r.call.target == objectPtr
    ensures r.call.peer == peer && r.call.flags == flags
    ensures KindOf(r.call.message) == c.argKind
    ensures Follows(reader, r.reader)
  {
    var m := ReadValue(reader, c.argKind);
    CallResult(MemberCall(c.onReceive, objectPtr, peer, flags, m.value), m.rest)
  }

  /** Over an encoded `v` the member receives exactly `v`, and the reader stops
      right after that one argument. */
  lemma CallDeliversEncoded(c: MethodConverter, objectPtr: Instance, peer: PeerRef, v: Value,
                            data: Frame, p: nat, flags: Flags)
    requires KindOf(v) == c.argKind && HoldsAt(data, p, Encode(v))
    ensures Call(c, objectPtr, peer, Reader(data, p, false), flags)
         == CallResult(MemberCall(c.onReceive, objectPtr, peer, flags, v), Reader(data, p + |Encode(v)|, false))
  {
    ReadAfterEncode(v, data, p);
  }

  /** A reader over the suffix `data[p..]` makes the same member call as the
      reader over the whole frame at position `p`. */
  lemma CallShifted(c: MethodConverter, objectPtr: Instance, peer: PeerRef, data: Frame, p: nat, flags: Flags)
    requires p <= |data|
    ensures Call(c, objectPtr, peer, Open(data[p..]), flags).call
         == Call(c, objectPtr, peer, Reader(data, p, false), flags).call
  {
    ReadValueShifted(Reader(data, p, false), Open(data[p..]), p, c.argKind);
  }

  /** A converter's queue has no bearing on what `Call` does. */
  lemma CallIgnoresQueue(c: MethodConverter, q: Option<QueueRef>, objectPtr: Instance, peer: PeerRef,
                         reader: Reader, flags: Flags)
    requires reader.Valid()
    ensures Call(c.(executionQueue := q), objectPtr, peer, reader, flags) == Call(c, objectPtr, peer, reader, flags)
  {
  }
}
