/** `rmi::MethodInvocationEnvironment`: named classes with per-class method
    tables, locally created objects addressed by a 64-bit id, and the
    dispatcher that turns an RMI frame into one member-function call. It is a
    `MessagePassingEnvironment` in the source; here it holds one as `base`
    and hands every frame without an RMI prefix to it. */
module MethodInvocation {
  import opened Types
  import opened Codec
  import opened MethodInvocationConverters
  import opened Commands
  import opened Peers
  import MP = MessagePassing

  /** `MethodProtocolSendFlags`: the first byte of an RMI frame. */
  const METHOD_SEND_PREFIX: byte := 1
  const METHOD_CALL_PREFIX: byte := 2

  /** The frame `SendInvoke` writes: prefix, object id, method name, arguments. */
  function SendInvokeFrame(objectId: u64, name: string, args: seq<Value>): Frame {
    [TByte(METHOD_SEND_PREFIX), TU64(objectId), TStr(name)] + EncodeAll(args)
  }

  /** The frame `CallInvoke` writes: as `SendInvoke`'s with the call prefix and
      the reply correlation id appended. */
  function CallInvokeFrame(objectId: u64, name: string, args: seq<Value>, returnCallbackId: u32): Frame {
    [TByte(METHOD_CALL_PREFIX), TU64(objectId), TStr(name)] + EncodeAll(args) + [TU32(returnCallbackId)]
  }

  predicate HasMethodPrefix(data: Frame) {
    |data| > 0 && (data[0] == TByte(METHOD_SEND_PREFIX) || data[0] == TByte(METHOD_CALL_PREFIX))
  }

  /** A registered object as dispatch sees it: its pointer and the method
      table of the class it was created as. */
  datatype Target = Target(objectPtr: Instance, methods: map<string, MethodConverter>)

  /** What `OnReceive` does with one frame. */
  datatype RmiOutcome =
    | PassedToBase
    | ObjectNotFound(objectId: u64)
    | MethodNotFound(objectId: u64, name: string)
    | Enqueued(queue: QueueRef, command: Payload)
    | CalledDirectly(converter: MethodConverter, objectPtr: Instance, peer: PeerRef, reader: Reader, flags: Flags)

  /** The decision `OnReceive` takes, on the objects' targets. */
  function Route(targets: map<nat, Target>, peer: PeerRef, data: Frame, flags: Flags): (r: RmiOutcome)
    ensures r.PassedToBase? <==> !HasMethodPrefix(data)
    ensures r.Enqueued? ==> r.command.ExecuteRMI? && r.command.WellFormed()
                            && r.command.peer == peer && r.command.binaryData == data && r.command.flags == flags
    ensures r.CalledDirectly? ==> r.reader.Valid() && r.reader.data == data && r.peer == peer && r.flags == flags
  {
    if !HasMethodPrefix(data) then PassedToBase
    else
      var b := ReadByte(Open(data));
      var oid := ReadU64(b.rest);
      if oid.value !in targets then ObjectNotFound(oid.value)
      else
        var name := ReadString(oid.rest);
        var t := targets[oid.value];
        if name.value !in t.methods then MethodNotFound(oid.value, name.value)
        else
          var m := t.methods[name.value];
          if m.executionQueue.Some?
          then Enqueued(m.executionQueue.value, ExecuteRMI(peer, data, name.rest.pos, flags, m, t.objectPtr))
          else CalledDirectly(m, t.objectPtr, peer, name.rest, flags)
  }

  /** The member call a frame ends in: made at once, or made when the queue
      runs the enqueued command; none when the lookup missed. */
  function Delivered(o: RmiOutcome): (c: Option<MemberCall>)
    ensures c.Some? ==> o.Enqueued? || o.CalledDirectly?
  {
    match o
    case CalledDirectly(m, ptr, peer, reader, flags) =>
      if reader.Valid() then Some(Call(m, ptr, peer, reader, flags).call) else None
    case Enqueued(_, cmd) =>
      if cmd.WellFormed() then
        match Execute(cmd, None)
        case RanMethodConverter(m, ptr, peer, reader, flags) => Some(Call(m, ptr, peer, reader, flags).call)
        case _ => None
      else None
    case _ => None
  }

  /** An RMI frame's header decides the outcome: an unknown object id, then a
      name missing from that object's own class table (the parent class is
      not consulted), then the method's queue. The reader handed on sits
      just after the name. */
  lemma HeaderRouting(targets: map<nat, Target>, peer: PeerRef, prefix: byte, objectId: u64, name: string,
                      rest: Frame, flags: Flags)
    requires prefix == METHOD_SEND_PREFIX || prefix == METHOD_CALL_PREFIX
    ensures var data := [TByte(prefix), TU64(objectId), TStr(name)] + rest;
      Route(targets, peer, data, flags)
        == if objectId !in targets then ObjectNotFound(objectId)
           else if name !in targets[objectId].methods then MethodNotFound(objectId, name)
           else
             var m := targets[objectId].methods[name];
             if m.executionQueue.Some?
             then Enqueued(m.executionQueue.value, ExecuteRMI(peer, data, 3, flags, m, targets[objectId].objectPtr))
             else CalledDirectly(m, targets[objectId].objectPtr, peer, Reader(data, 3, false), flags)
  {
    var data := [TByte(prefix), TU64(objectId), TStr(name)] + rest;
    assert data[0] == TByte(prefix) && data[1] == TU64(objectId) && data[2] == TStr(name);
  }

  /** Putting a method on a queue, or taking it off, changes when the member
      function runs but not the call it receives. */
  lemma DeferredMatchesDirect(targets: map<nat, Target>, peer: PeerRef, prefix: byte, objectId: u64,
                              name: string, rest: Frame, flags: Flags, q: Option<QueueRef>)
    requires prefix == METHOD_SEND_PREFIX || prefix == METHOD_CALL_PREFIX
    requires objectId in targets && name in targets[objectId].methods
    ensures var data := [TByte(prefix), TU64(objectId), TStr(name)] + rest;
      var t := targets[objectId];
      var retargeted := targets[objectId := t.(methods := t.methods[name := t.methods[name].(executionQueue := q)])];
      Delivered(Route(retargeted, peer, data, flags)) == Delivered(Route(targets, peer, data, flags))
  {
    var data := [TByte(prefix), TU64(objectId), TStr(name)] + rest;
    var t := targets[objectId];
    var m := t.methods[name];
    var retargeted := targets[objectId := t.(methods := t.methods[name := m.(executionQueue := q)])];
    HeaderRouting(targets, peer, prefix, objectId, name, rest, flags);
    HeaderRouting(retargeted, peer, prefix, objectId, name, rest, flags);
    var direct := Call(m, t.objectPtr, peer, Reader(data, 3, false), flags).call;
    CallShifted(m, t.objectPtr, peer, data, 3, flags);
    CallShifted(m.(executionQueue := q), t.objectPtr, peer, data, 3, flags);
    CallIgnoresQueue(m, q, t.objectPtr, peer, Reader(data, 3, false), flags);
    assert Delivered(Route(targets, peer, data, flags)) == Some(direct);
  }

  /** Queuing can change the call when the name read fails. Dispatch goes on
      with the name `""` and a failed reader, which gives the member its
      default argument; the queued command re-opens a clean reader at the
      same offset, which then reads the token the name read rejected. */
  lemma QueuedRereadsAfterFailedName(ptr: Instance, member: MemberRef, queue: QueueRef, peer: PeerRef, flags: Flags)
    ensures var data := [TByte(METHOD_SEND_PREFIX), TU64(2), TInt(7)];
      var m := MethodConverter(member, IntKind, None);
      var direct := map[2 := Target(ptr, map["" := m])];
      var queued := map[2 := Target(ptr, map["" := m.(executionQueue := Some(queue))])];
      && Delivered(Route(direct, peer, data, flags)) == Some(MemberCall(member, ptr, peer, flags, VInt(0)))
      && Delivered(Route(queued, peer, data, flags)) == Some(MemberCall(member, ptr, peer, flags, VInt(7)))
  {
    var data := [TByte(METHOD_SEND_PREFIX), TU64(2), TInt(7)];
    assert data[2..] == [TInt(7)];
  }

  /** A header followed by one encoded argument reaches the named method,
      which receives that argument whatever follows it. */
  lemma FrameDelivers(targets: map<nat, Target>, peer: PeerRef, prefix: byte, objectId: u64, name: string,
                      arg: Value, tail: Frame, flags: Flags)
    requires prefix == METHOD_SEND_PREFIX || prefix == METHOD_CALL_PREFIX
    requires objectId in targets && name in targets[objectId].methods
    requires KindOf(arg) == targets[objectId].methods[name].argKind
    ensures var m := targets[objectId].methods[name];
      Delivered(Route(targets, peer, [TByte(prefix), TU64(objectId), TStr(name)] + (Encode(arg) + tail), flags))
        == Some(MemberCall(m.onReceive, targets[objectId].objectPtr, peer, flags, arg))
  {
    var t := targets[objectId];
    var m := t.methods[name];
    var rest := Encode(arg) + tail;
    var data := [TByte(prefix), TU64(objectId), TStr(name)] + rest;
    assert data[3..] == rest;
    assert data[3..3 + |Encode(arg)|] == Encode(arg);
    var plain := targets[objectId := t.(methods := t.methods[name := m.(executionQueue := None)])];
    DeferredMatchesDirect(targets, peer, prefix, objectId, name, rest, flags, None);
    HeaderRouting(plain, peer, prefix, objectId, name, rest, flags);
    CallDeliversEncoded(m.(executionQueue := None), t.objectPtr, peer, arg, data, 3, flags);
  }

  /** The frames `SendInvoke` and `CallInvoke` write reach the named method of
      the addressed object, which receives exactly the first argument sent. */
  lemma {:induction false} InvokeDelivers(targets: map<nat, Target>, peer: PeerRef, objectId: u64, name: string,
                                          args: seq<Value>, returnCallbackId: Option<u32>, flags: Flags)
    requires objectId in targets && name in targets[objectId].methods
    requires |args| > 0 && KindOf(args[0]) == targets[objectId].methods[name].argKind
    ensures var data := if returnCallbackId.Some? then CallInvokeFrame(objectId, name, args, returnCallbackId.value)
                        else SendInvokeFrame(objectId, name, args);
      var m := targets[objectId].methods[name];
      Delivered(Route(targets, peer, data, flags))
        == Some(MemberCall(m.onReceive, targets[objectId].objectPtr, peer, flags, args[0]))
  {
    var prefix := if returnCallbackId.Some? then METHOD_CALL_PREFIX else METHOD_SEND_PREFIX;
    var tail := EncodeAll(args[1..]) + (if returnCallbackId.Some? then [TU32(returnCallbackId.value)] else []);
    assert EncodeAll(args) == Encode(args[0]) + EncodeAll(args[1..]);
    assert [TByte(prefix), TU64(objectId), TStr(name)] + (Encode(args[0]) + tail)
        == if returnCallbackId.Some? then CallInvokeFrame(objectId, name, args, returnCallbackId.value)
           else SendInvokeFrame(objectId, name, args);
    FrameDelivers(targets, peer, prefix, objectId, name, args[0], tail, flags);
  }

  /** `rmi::Class`: a name, an optional parent, the constructor of instances and
      the table of methods registered for exactly this class. */
  class Class {
    var methods: map<string, MethodConverter>
    const makeInstance: ConstructorRef
    const parentClass: Option<Class>
    const name: string

    constructor (parentClass: Option<Class>, name: string, makeInstance: ConstructorRef)
      ensures this.parentClass == parentClass && this.name == name && this.makeInstance == makeInstance
      ensures methods == map[]
    {
      this.parentClass := parentClass;
      this.name := name;
      this.makeInstance := makeInstance;
      methods := map[];
    }

    /** Binds `methodName`, replacing an earlier binding of the same name. */
    method RegisterMethod(methodName: string, converter: MethodConverter)
      modifies this`methods
      ensures methods == old(methods)[methodName := converter]
    {
      methods := methods[methodName := converter];
    }
  }

  /** `rmi::Object`: a created instance and the class it was created as. */
  datatype Object = Object(objectPtr: Instance, objectClass: Class)

  /** The corrected reply-id allocation: advance the generator, wrapping at
      32 bits, until the id is neither 0 nor already pending. The id is the
      first such one after the generator. */
  method AllocateReturnCallbackId(generator: u32, pending: set<u32>) returns (id: u32)
    requires |pending| < U32_MODULUS - 1
    ensures id != 0 && id !in pending
    ensures 1 <= Offset(generator, id)
    ensures forall k :: 1 <= k < Offset(generator, id) ==> Succ(generator, k) == 0 || Succ(generator, k) in pending
  {
    var tries := 1;
    id := Succ(generator, 1);
    ghost var tried: set<u32> := {};
    while id == 0 || id in pending
      invariant 1 <= tries <= U32_MODULUS
      invariant id == Succ(generator, tries) && Offset(generator, id) == tries
      invariant tried <= pending + {0} && |tried| == tries - 1
      invariant forall x :: x in tried ==> Offset(generator, x) < tries
      invariant forall k :: 1 <= k < tries ==> Succ(generator, k) == 0 || Succ(generator, k) in pending
      decreases U32_MODULUS - tries
    {
      assert id !in tried;
      tried := tried + {id};
      SubsetSize(tried, pending + {0});
      assert |pending + {0}| <= |pending| + 1;
      tries := tries + 1;
      id := Succ(generator, tries);
      SuccOffset(generator, tries);
    }
  }

  /** The value `++` reaches after `k` increments of a `uint32_t` from `g`. */
  function Succ(g: u32, k: nat): u32 {
    (g + k) % U32_MODULUS
  }

  /** How many increments from `g` first reach `x`, in 1..2^32. */
  function Offset(g: u32, x: u32): (k: nat)
    ensures 1 <= k <= U32_MODULUS && Succ(g, k) == x
  {
    (x - g - 1) % U32_MODULUS + 1
  }

  lemma SuccOffset(g: u32, k: nat)
    requires 1 <= k <= U32_MODULUS
    ensures Offset(g, Succ(g, k)) == k
  {
  }

  lemma {:induction false} SubsetSize<T>(a: set<T>, b: set<T>)
    requires a <= b
    ensures |a| <= |b|
    decreases |a|
  {
    if a != {} {
      var x :| x in a;
      SubsetSize(a - {x}, b - {x});
    }
  }

  /** The allocation as written: the loop guard joins its two conditions with
      `&&`, so it advances only past a pending 0, once. */
  function AllocateReturnCallbackIdAsWritten(generator: u32, pending: set<u32>): (id: u32)
    ensures id == if Succ(generator, 1) == 0 && 0 in pending then 1 else Succ(generator, 1)
  {
    var first := Succ(generator, 1);
    if first == 0 && first in pending then Succ(first, 1) else first
  }

  /** At the top of the range the written loop hands out 0 unless 0 is pending. */
  lemma AsWrittenIssuesZero(pending: set<u32>)
    requires 0 !in pending
    ensures AllocateReturnCallbackIdAsWritten(0xFFFF_FFFF, pending) == 0
  {
  }

  /** Whenever the next id is nonzero but still pending, the written loop hands
      it out again. */
  lemma AsWrittenReusesPendingId(generator: u32, pending: set<u32>)
    requires Succ(generator, 1) != 0 && Succ(generator, 1) in pending
    ensures AllocateReturnCallbackIdAsWritten(generator, pending) in pending
  {
  }

  /** The value a function-local `static uint64_t ids = 1` holds for type
      argument `t`: its last value if instantiated already, else 1. */
  function Counter(counters: map<string, nat>, t: string): nat {
    if t in counters then counters[t] else 1
  }

  /** The ids `CreateLocalObject<T>` hands out as written: the counter is a
      function-local `static`, so there is one per type argument `T`, each
      starting at 1. `counters` holds those already instantiated. The `i`th
      call gets its own type argument's counter advanced once for every
      earlier call with that argument, plus one. */
  function ObjectIdsAsWritten(counters: map<string, nat>, typeArgs: seq<string>): (ids: seq<nat>)
    ensures |ids| == |typeArgs|
    ensures forall i :: 0 <= i < |typeArgs| ==>
      ids[i] == Counter(counters, typeArgs[i]) + multiset(typeArgs[..i])[typeArgs[i]] + 1
    decreases typeArgs
  {
    if typeArgs == [] then []
    else
      var t := typeArgs[0];
      var next := Counter(counters, t) + 1;
      var rest := ObjectIdsAsWritten(counters[t := next], typeArgs[1..]);
      ObjectIdsStep(counters, typeArgs, rest);
      [next] + rest
  }

  /** One unfolding of `ObjectIdsAsWritten`: the first call advances its
      type's counter, which the remaining calls then see. */
  lemma ObjectIdsStep(counters: map<string, nat>, typeArgs: seq<string>, rest: seq<nat>)
    requires typeArgs != [] && |rest| == |typeArgs| - 1
    requires forall i :: 0 <= i < |rest| ==>
      rest[i] == Counter(counters[typeArgs[0] := Counter(counters, typeArgs[0]) + 1], typeArgs[1..][i])
                 + multiset(typeArgs[1..][..i])[typeArgs[1..][i]] + 1
    ensures forall i :: 0 <= i < |typeArgs| ==>
      ([Counter(counters, typeArgs[0]) + 1] + rest)[i]
        == Counter(counters, typeArgs[i]) + multiset(typeArgs[..i])[typeArgs[i]] + 1
  {
    forall i | 0 <= i < |typeArgs|
      ensures ([Counter(counters, typeArgs[0]) + 1] + rest)[i]
              == Counter(counters, typeArgs[i]) + multiset(typeArgs[..i])[typeArgs[i]] + 1
    {
      if i > 0 {
        ObjectIdStepAt(counters, typeArgs, i, rest[i - 1]);
      }
    }
  }

  /** The `i`-th id of `ObjectIdsAsWritten`, for `i > 0`: counting from the
      advanced counters over the tail is counting from the old ones over the
      whole argument list. */
  lemma ObjectIdStepAt(counters: map<string, nat>, typeArgs: seq<string>, i: nat, id: nat)
    requires 0 < i < |typeArgs|
    requires id == Counter(counters[typeArgs[0] := Counter(counters, typeArgs[0]) + 1], typeArgs[1..][i - 1])
                   + multiset(typeArgs[1..][..i - 1])[typeArgs[1..][i - 1]] + 1
    ensures id == Counter(counters, typeArgs[i]) + multiset(typeArgs[..i])[typeArgs[i]] + 1
  {
    var first, u := typeArgs[0], typeArgs[i];
    assert typeArgs[1..][i - 1] == u;
    assert typeArgs[..i] == [first] + typeArgs[1..][..i - 1];
    assert multiset(typeArgs[..i]) == multiset{first} + multiset(typeArgs[1..][..i - 1]);
    if u == first {
      assert Counter(counters[first := Counter(counters, first) + 1], u) == Counter(counters, u) + 1;
    } else {
      assert Counter(counters[first := Counter(counters, first) + 1], u) == Counter(counters, u);
    }
  }

  /** Within one type argument the written ids strictly increase, and every
      id is at least 2 when no counter has fallen below its start. */
  lemma ObjectIdsIncreasePerType(counters: map<string, nat>, typeArgs: seq<string>, i: nat, j: nat)
    requires i < j < |typeArgs| && typeArgs[i] == typeArgs[j]
    requires forall t :: t in counters ==> counters[t] >= 1
    ensures var ids := ObjectIdsAsWritten(counters, typeArgs);
      2 <= ids[i] < ids[j]
  {
    var t := typeArgs[j];
    assert typeArgs[..j] == typeArgs[..i] + typeArgs[i..j];
    assert typeArgs[i..j][0] == t;
    assert multiset(typeArgs[..j])[t] == multiset(typeArgs[..i])[t] + multiset(typeArgs[i..j])[t];
  }

  /** The first objects created through two different, not yet instantiated
      type arguments both get id 2. */
  lemma ObjectIdsRepeatAcrossTypes(counters: map<string, nat>, t: string, u: string)
    requires t != u && t !in counters && u !in counters
    ensures ObjectIdsAsWritten(counters, [t, u]) == [2, 2]
  {
    var ids := ObjectIdsAsWritten(counters, [t, u]);
    assert [t, u][..1] == [t];
    assert multiset([t])[u] == 0;
  }

  class MethodInvocationEnvironment {
    const base: MP.MessagePassingEnvironment
    var classes: map<string, Class>
    var objects: map<nat, Object>
    /** The object-id counter, one per environment. */
    var ids: nat
    /** Member calls made directly by dispatch, in order. */
    ghost var memberCalls: seq<MemberCall>
    /** Commands handed to execution queues by dispatch, in order. */
    ghost var enqueued: seq<(QueueRef, Payload)>
    /** The lookups that missed, each of them a `DEBUG` line in the source. */
    ghost var reported: seq<RmiOutcome>

    /** Every live id was handed out by the counter. */
    ghost predicate Valid()
      reads this
    {
      ids >= 1 && forall id :: id in objects ==> 2 <= id <= ids
    }

    constructor (base: MP.MessagePassingEnvironment)
      ensures Valid() && this.base == base
      ensures classes == map[] && objects == map[] && ids == 1
      ensures memberCalls == [] && enqueued == [] && reported == []
    {
      this.base := base;
      classes := map[];
      objects := map[];
      ids := 1;
      memberCalls := [];
      enqueued := [];
      reported := [];
    }

    /** The class registered under `name`, if any. */
    function GetClassByName(name: string): (r: Option<Class>)
      reads this
      ensures r.Some? <==> name in classes
      ensures r.Some? ==> r.value == classes[name]
    {
      if name in classes then Some(classes[name]) else None
    }

    /** The classes of the live objects. */
    ghost function ObjectClasses(): set<Class>
      reads this
    {
      set id | id in objects :: objects[id].objectClass
    }

    /** Each live object with its class's current method table. */
    function Targets(): (t: map<nat, Target>)
      reads this, ObjectClasses()
      ensures t.Keys == objects.Keys
      ensures forall id :: id in t ==> t[id] == Target(objects[id].objectPtr, objects[id].objectClass.methods)
    {
      map id | id in objects :: Target(objects[id].objectPtr, objects[id].objectClass.methods)
    }

    /** `RegisterClass<T>`: binds a fresh class with no methods under
        `className`, replacing an earlier class of that name. */
    method RegisterClass(className: string, parentClass: Option<Class>, makeInstance: ConstructorRef)
      modifies this`classes
      ensures classes.Keys == old(classes.Keys) + {className}
      ensures forall n :: n in old(classes) && n != className ==> classes[n] == old(classes[n])
      ensures fresh(classes[className]) && classes[className].methods == map[]
      ensures classes[className].parentClass == parentClass && classes[className].name == className
      ensures classes[className].makeInstance == makeInstance
    {
      var cls := new Class(parentClass, className, makeInstance);
      classes := classes[className := cls];
    }

    /** `RegisterMemberFunction`: adds a converter for `member` to the named
        class's own table, or fails when there is no such class. */
    method RegisterMemberFunction(className: string, methodName: string, member: MemberRef, argKind: Kind,
                                  executionQueue: Option<QueueRef>) returns (r: Outcome)
      modifies if className in classes then {classes[className]} else {}
      ensures r.Pass? <==> className in classes
      ensures r.Fail? ==> r.error == "No class named '" + className + "' found."
      ensures r.Pass? ==> classes[className].methods
                          == old(classes[className].methods)[methodName := MethodConverter(member, argKind, executionQueue)]
    {
      var cls := GetClassByName(className);
      if cls.Some? {
        var mtd := MethodConverter(member, argKind, executionQueue);
        cls.value.RegisterMethod(methodName, mtd);
        r := Pass;
      } else {
        r := Fail("No class named '" + className + "' found.");
      }
    }

    /** `GetObject<T>(id)`: the instance under `id`, if any. */
    function GetObject(id: nat): (r: Option<Instance>)
      reads this
      ensures r.Some? <==> id in objects
      ensures r.Some? ==> r.value == objects[id].objectPtr
    {
      if id in objects then Some(objects[id].objectPtr) else None
    }

    /** `CreateLocalObject<T>` with one counter per environment: the id is
        consumed even when the class is unknown, and is never one in use. */
    method CreateLocalObject(className: string) returns (id: nat, obj: Option<Instance>)
      requires Valid()
      modifies this`ids, this`objects
      ensures Valid()
      ensures id == old(ids) + 1 && ids == id
      ensures id !in old(objects) && forall k :: k in old(objects) ==> k < id
      ensures obj.Some? <==> className in classes
      ensures className in classes ==>
                obj == Some(Instance(classes[className].makeInstance, id))
                && objects == old(objects)[id := Object(obj.value, classes[className])]
      ensures className !in classes ==> objects == old(objects)
    {
      ids := ids + 1;
      id := ids;
      var cls := GetClassByName(className);
      if cls.Some? {
        var instance := Instance(cls.value.makeInstance, id);
        objects := objects[id := Object(instance, cls.value)];
        obj := Some(instance);
      } else {
        obj := None;
      }
    }

    /** `SendInvoke`: sends the invocation frame; fails as `Peer::Send` does. */
    method SendInvoke(peer: Peer, flags: Flags, objectId: u64, name: string, args: seq<Value>) returns (r: Outcome)
      modifies peer.host`commands
      ensures r.Pass? <==> peer.state == STATE_READY_TO_USE
      ensures peer.host.commands == old(peer.host.commands)
        + (if r.Pass? then [ExecuteSend(peer.id, peer.host.id, SendInvokeFrame(objectId, name, args), flags)] else [])
    {
      r := peer.Send(SendInvokeFrame(objectId, name, args), flags);
    }

    /** `CallInvoke`: allocates a reply id, registers the callback under it
        before sending, then sends the call frame carrying that id. */
    method CallInvoke(peer: Peer, flags: Flags, callback: CallbackRef, objectId: u64, name: string,
                      args: seq<Value>) returns (returnCallbackId: u32, r: Outcome)
      requires |base.returningCallbacks.Keys| < U32_MODULUS - 1
      modifies base`returningCallbacks, base`returnCallCallbackIdGenerator, peer.host`commands
      ensures returnCallbackId != 0 && returnCallbackId !in old(base.returningCallbacks)
      ensures base.returnCallCallbackIdGenerator == returnCallbackId
      ensures base.returningCallbacks == old(base.returningCallbacks)[returnCallbackId := callback]
      ensures r.Pass? <==> peer.state == STATE_READY_TO_USE
      ensures peer.host.commands == old(peer.host.commands)
        + (if r.Pass?
           then [ExecuteSend(peer.id, peer.host.id, CallInvokeFrame(objectId, name, args, returnCallbackId), flags)]
           else [])
    {
      returnCallbackId := AllocateReturnCallbackId(base.returnCallCallbackIdGenerator, base.returningCallbacks.Keys);
      base.returnCallCallbackIdGenerator := returnCallbackId;
      base.returningCallbacks := base.returningCallbacks[returnCallbackId := callback];
      r := peer.Send(CallInvokeFrame(objectId, name, args, returnCallbackId), flags);
    }

    /** `OnReceive`: routes an RMI frame to its object's method, directly or
        through the method's queue, and any other frame to `base`. */
    method OnReceive(peer: PeerRef, data: Frame, flags: Flags)
      modifies this`memberCalls, this`enqueued, this`reported, base`handlerCalls
      ensures Targets() == old(Targets())
      ensures var o := Route(old(Targets()), peer, data, flags);
        && base.handlerCalls == old(base.handlerCalls)
             + (if o.PassedToBase? then MP.DispatchCalls(base.registeredMessages, peer, data, flags) else [])
        && memberCalls == old(memberCalls)
             + (if o.CalledDirectly? then [Call(o.converter, o.objectPtr, peer, o.reader, flags).call] else [])
        && enqueued == old(enqueued) + (if o.Enqueued? then [(o.queue, o.command)] else [])
        && reported == old(reported) + (if o.ObjectNotFound? || o.MethodNotFound? then [o] else [])
    {
      if HasMethodPrefix(data) {
        var reader := Open(data);
        var b := ReadByte(reader);
        reader := b.rest;
        var oid := ReadU64(reader);
        reader := oid.rest;
        if oid.value in objects {
          var entry := objects[oid.value];
          var name := ReadString(reader);
          reader := name.rest;
          var cls := entry.objectClass;
          if name.value in cls.methods {
            var mtd := cls.methods[name.value];
            if mtd.executionQueue.Some? {
              var command := ExecuteRMI(peer, reader.data, reader.pos, flags, mtd, entry.objectPtr);
              enqueued := enqueued + [(mtd.executionQueue.value, command)];
            } else {
              var c := Call(mtd, entry.objectPtr, peer, reader, flags);
              memberCalls := memberCalls + [c.call];
            }
          } else {
            reported := reported + [MethodNotFound(oid.value, name.value)];
          }
        } else {
          reported := reported + [ObjectNotFound(oid.value)];
        }
      } else {
        base.OnReceive(peer, data, flags);
      }
    }

    /** The destructor: forgets every object and class. */
    method Clear()
      requires Valid()
      modifies this`objects, this`classes
      ensures Valid()
      ensures objects == map[] && classes == map[]
    {
      objects := map[];
      classes := map[];
    }
  }

  /** The registrations of the fourth example program: `Method` and
      `Method2` go to `TestClass`'s own table, `Method2` with a queue, and
      `InheritedClass`, a child of `TestClass`, gets none. */
  method ExampleClasses(queue: QueueRef) returns (env: MethodInvocationEnvironment, testClass: Class, inherited: Class)
    ensures fresh(env) && fresh(env.base) && env.Valid()
    ensures env.memberCalls == [] && env.enqueued == [] && env.reported == []
    ensures env.objects == map[] && env.ids == 1
    ensures env.classes == map["TestClass" := testClass, "InheritedClass" := inherited]
    ensures testClass.methods == map["Method" := MethodConverter(1, IntKind, None),
                                     "Method2" := MethodConverter(2, StringKind, Some(queue))]
    ensures inherited.methods == map[] && testClass.makeInstance == 10 && inherited.makeInstance == 11
  {
    var base := new MP.MessagePassingEnvironment();
    env := new MethodInvocationEnvironment(base);
    env.RegisterClass("TestClass", None, 10);
    testClass := env.classes["TestClass"];
    var r1 := env.RegisterMemberFunction("TestClass", "Method", 1, IntKind, None);
    env.RegisterClass("InheritedClass", Some(testClass), 11);
    inherited := env.classes["InheritedClass"];
    var r2 := env.RegisterMemberFunction("TestClass", "Method2", 2, StringKind, Some(queue));
  }

  /** The set-up of the fourth example program: after the registrations, one
      object of `TestClass` (id 2) and one of `InheritedClass` (id 3) are
      created. */
  method ExampleSetUp(queue: QueueRef) returns (env: MethodInvocationEnvironment)
    ensures fresh(env) && fresh(env.base)
    ensures env.memberCalls == [] && env.enqueued == [] && env.reported == []
    ensures env.Targets() == map[
      2 := Target(Instance(10, 2), map["Method" := MethodConverter(1, IntKind, None),
                                       "Method2" := MethodConverter(2, StringKind, Some(queue))]),
      3 := Target(Instance(11, 3), map[])]
  {
    var testClass, inherited;
    env, testClass, inherited := ExampleClasses(queue);
    var id0, obj0 := env.CreateLocalObject("TestClass");
    var id1, obj1 := env.CreateLocalObject("InheritedClass");
    assert env.objects == map[2 := Object(Instance(10, 2), testClass), 3 := Object(Instance(11, 3), inherited)];
  }

  /** The fourth example's two `SendInvoke`s of `Method2`: the call on the
      `InheritedClass` object is not found, since only the parent class's
      table holds the method; the call on the `TestClass` object goes to the
      queue and, once run, delivers its first argument. */
  method InheritedMethodScenario(peer: PeerRef, queue: QueueRef) returns (env: MethodInvocationEnvironment)
    ensures env.reported == [MethodNotFound(3, "Method2")] && env.memberCalls == []
    ensures |env.enqueued| == 1 && env.enqueued[0].0 == queue
    ensures Delivered(Enqueued(queue, env.enqueued[0].1)) == Some(MemberCall(2, Instance(10, 2), peer, 0, VString("asdf")))
  {
    env := ExampleSetUp(queue);
    var args0 := [VString("asdf"), VInt(666)];
    var args1 := [VString("qwerty"), VInt(999)];
    ghost var t := env.Targets();
    var frame0 := SendInvokeFrame(2, "Method2", args0);
    var frame1 := SendInvokeFrame(3, "Method2", args1);
    InvokeDelivers(t, peer, 2, "Method2", args0, None, 0);
    HeaderRouting(t, peer, METHOD_SEND_PREFIX, 2, "Method2", EncodeAll(args0), 0);
    HeaderRouting(t, peer, METHOD_SEND_PREFIX, 3, "Method2", EncodeAll(args1), 0);
    ghost var o0 := Route(t, peer, frame0, 0);
    assert o0.Enqueued? && o0.queue == queue;
    assert Route(t, peer, frame1, 0) == MethodNotFound(3, "Method2");
    env.OnReceive(peer, frame0, 0);
    assert env.Targets() == t;
    env.OnReceive(peer, frame1, 0);
  }
}
