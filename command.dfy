/** `Command`: one deferred unit of work. The variants are the structs of
    namespace `commands`; the wrapper class keeps the source's manual tagged
    union, a `hasValue` flag beside raw storage, with move-only transfer. */
module Commands {
  import opened Types
  import opened Codec
  import MC = MessageConverters
  import RC = MethodInvocationConverters

  /** `commands::ExecuteOnPeer`: run `function(peer, data, customSharedData)`;
      `func` is that `function`. */
  datatype OnPeerTask = OnPeerTask(
    peer: Option<PeerRef>,
    data: seq<byte>,
    customSharedData: SharedRef,
    func: FunctionRef)

  /** The payload a `Command` can hold, one variant at a time. */
  datatype Payload =
    | ExecuteOnPeer(task: OnPeerTask)
    | ExecuteRPC(peer: PeerRef, binaryData: Frame, readOffset: nat, flags: Flags,
                 messageConverter: MC.MessageConverter)
    | ExecuteRMI(peer: PeerRef, binaryData: Frame, readOffset: nat, flags: Flags,
                 methodInvoker: RC.MethodConverter, objectPtr: Instance)
    | ExecuteConnect(host: HostRef, address: string, executionQueue: Option<QueueRef>,
                     onConnected: OnPeerTask)
    | ExecuteSend(peer: PeerRef, host: HostRef, data: Frame, flags: Flags)
    | ExecuteDisconnect(peer: PeerRef, disconnectData: u32)
    | ExecuteFunctionPointer(func: FunctionRef)
  {
    /** The read offset of a decoding command lies inside its data, as the
        source's pointer arithmetic `binaryData.data() + readOffset` needs. */
    predicate WellFormed() {
      (ExecuteRPC? || ExecuteRMI?) ==> readOffset <= |binaryData|
    }
  }

  /** The one operation a payload's `Execute` forwards to. */
  datatype Effect =
    | RanOnPeer(task: OnPeerTask)
    | RanMessageConverter(messageConverter: MC.MessageConverter, peer: PeerRef, reader: Reader, flags: Flags)
    | RanMethodConverter(methodInvoker: RC.MethodConverter, objectPtr: Instance, peer: PeerRef,
                         reader: Reader, flags: Flags)
    | EnqueuedOn(queue: QueueRef, enqueued: Payload)
    | InternalSend(peer: PeerRef, data: Frame, flags: Flags)
    | InternalDisconnect(peer: PeerRef, disconnectData: u32)
    | RanFunction(func: FunctionRef)

  /** `Execute()` of each variant. `connected` is what `host->_InternalConnect`
      returns; only `ExecuteConnect` uses it. */
  function Execute(p: Payload, connected: Option<PeerRef>): (e: Effect)
    requires p.WellFormed()
    ensures p.ExecuteRPC? ==>
      && e.RanMessageConverter? && e.messageConverter == p.messageConverter
      && e.peer == p.peer && e.flags == p.flags && e.reader == Open(p.binaryData[p.readOffset..])
    ensures p.ExecuteRMI? ==>
      && e.RanMethodConverter? && e.methodInvoker == p.methodInvoker && e.objectPtr == p.objectPtr
      && e.peer == p.peer && e.flags == p.flags && e.reader == Open(p.binaryData[p.readOffset..])
    ensures p.ExecuteConnect? ==>
      if p.executionQueue.Some?
      then e == EnqueuedOn(p.executionQueue.value, ExecuteOnPeer(p.onConnected.(peer := connected)))
      else e == RanOnPeer(p.onConnected.(peer := connected))
    ensures p.ExecuteOnPeer? ==> e == RanOnPeer(p.task)
    ensures p.ExecuteSend? ==> e == InternalSend(p.peer, p.data, p.flags)
    ensures p.ExecuteDisconnect? ==> e == InternalDisconnect(p.peer, p.disconnectData)
    ensures p.ExecuteFunctionPointer? ==> e == RanFunction(p.func)
  {
    match p
    case ExecuteOnPeer(task) => RanOnPeer(task)
    case ExecuteRPC(peer, data, off, flags, conv) =>
      RanMessageConverter(conv, peer, Open(data[off..]), flags)
    case ExecuteRMI(peer, data, off, flags, conv, obj) =>
      RanMethodConverter(conv, obj, peer, Open(data[off..]), flags)
    case ExecuteConnect(_, _, queue, onConnected) =>
      var task := onConnected.(peer := connected);
      if queue.Some? then EnqueuedOn(queue.value, ExecuteOnPeer(task)) else RanOnPeer(task)
    case ExecuteSend(peer, _, data, flags) => InternalSend(peer, data, flags)
    case ExecuteDisconnect(peer, dd) => InternalDisconnect(peer, dd)
    case ExecuteFunctionPointer(f) => RanFunction(f)
  }

  /** A deferred RPC, once executed, makes the handler call its converter
      would have made reading the frame in place from `readOffset`. */
  lemma DeferredRpcMatchesDirect(peer: PeerRef, data: Frame, off: nat, flags: Flags, c: MC.MessageConverter)
    requires off <= |data|
    ensures var e := Execute(ExecuteRPC(peer, data, off, flags, c), None);
      MC.Call(e.messageConverter, e.peer, e.reader, e.flags).call == MC.Call(c, peer, Reader(data, off, false), flags).call
  {
    MC.CallShifted(c, peer, data, off, flags);
  }

  /** A deferred RMI, once executed, makes the member call its converter would
      have made on the same object reading the frame in place from `readOffset`. */
  lemma DeferredRmiMatchesDirect(peer: PeerRef, data: Frame, off: nat, flags: Flags, c: RC.MethodConverter,
                                 obj: Instance)
    requires off <= |data|
    ensures var e := Execute(ExecuteRMI(peer, data, off, flags, c, obj), None);
      RC.Call(e.methodInvoker, e.objectPtr, e.peer, e.reader, e.flags).call
        == RC.Call(c, obj, peer, Reader(data, off, false), flags).call
  {
    RC.CallShifted(c, obj, peer, data, off, flags);
  }

  /** Whether `ExecuteConnect` defers its follow-up or runs it inline, the
      `onConnected` task that finally runs is the same: the connect result
      filled in as its peer. */
  lemma ConnectRunsOnConnectedOnce(p: Payload, connected: Option<PeerRef>)
    requires p.ExecuteConnect?
    ensures var e := Execute(p, connected);
      var ran := if e.EnqueuedOn? then Execute(e.enqueued, None) else e;
      ran == RanOnPeer(p.onConnected.(peer := connected))
  {
  }

  /** `Command`: `hasValue` says whether `storage` holds a live payload.
      `destroyed` records every payload destructor call. */
  class Command {
    var hasValue: bool
    var storage: Payload
    ghost var destroyed: seq<Payload>

    /** `Command()`: empty. */
    constructor ()
      ensures !hasValue && destroyed == []
    {
      hasValue := false;
      destroyed := [];
    }

    /** `Command(ExecuteX&&)`: holds the given payload. */
    constructor Of(p: Payload)
      ensures hasValue && storage == p && destroyed == []
    {
      hasValue := true;
      storage := p;
      destroyed := [];
    }

    /** `Command(Command&&)`: start empty, then move-assign from `other`. */
    constructor Moved(other: Command)
      modifies other
      ensures hasValue == old(other.hasValue) && storage == old(other.storage)
      ensures !other.hasValue && other.storage == old(other.storage)
      ensures other.destroyed == old(other.destroyed) && destroyed == []
    {
      hasValue := other.hasValue;
      storage := other.storage;
      destroyed := [];
      new;
      other.hasValue := false;
    }

    /** `operator=(Command&&)`: destroy what this holds, copy `other`'s bytes,
        mark `other` empty. Assigning a command to itself leaves it empty. */
    method MoveAssign(other: Command)
      modifies this, other
      ensures destroyed == old(destroyed) + (if old(hasValue) then [old(storage)] else [])
      ensures other != this ==>
        hasValue == old(other.hasValue) && storage == old(other.storage)
        && !other.hasValue && other.storage == old(other.storage)
        && other.destroyed == old(other.destroyed)
      ensures other == this ==> !hasValue && storage == old(storage)
    {
      Destroy();
      hasValue := other.hasValue;
      storage := other.storage;
      other.hasValue := false;
    }

    /** `~Command()`: destroy the payload if there is one, then mark empty. */
    method Destroy()
      modifies this
      ensures !hasValue && storage == old(storage)
      ensures destroyed == old(destroyed) + (if old(hasValue) then [old(storage)] else [])
    {
      if hasValue {
        destroyed := destroyed + [storage];
        hasValue := false;
      }
    }

    /** `Execute()`: forward to the held payload's `Execute`. */
    method Run(connected: Option<PeerRef>) returns (e: Effect)
      requires hasValue && storage.WellFormed()
      ensures e == Execute(storage, connected)
    {
      e := Execute(storage, connected);
    }
  }

  /** Moving a command and then destroying both the source and the target
      destroys the moved payload exactly once. */
  method MoveThenDestroyBoth(p: Payload) returns (a: Command, b: Command)
    ensures fresh(a) && fresh(b)
    ensures a.destroyed == [] && b.destroyed == [p]
  {
    a := new Command.Of(p);
    b := new Command();
    b.MoveAssign(a);
    a.Destroy();
    b.Destroy();
  }
}
