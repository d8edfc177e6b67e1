# ICon6 core, modelled in Dafny

ICon6 is a C++ networking middleware. The model covers its core: the logic between the
transport and user handlers, in five parts.

- The **peer lifecycle**:
  - the handshake state machine that decides what an inbound packet does;
  - the `STATE_READY_TO_USE` gate on `Send`;
  - the flag-to-packet mapping;
  - the callback precedence (per-peer, then host, then the message-passing environment).
- The **command** tagged union:
  - the `Execute` body of each variant;
  - the wrapper class with its `hasValue` flag and move-only transfer.
- **Named-message dispatch**: `MessagePassingEnvironment::OnReceive` and the converter that
  decodes one argument and calls the handler once.
- The **RMI environment**:
  - the class registry and the object registry;
  - the object-id counter;
  - the reply correlation-id generator;
  - the `SendInvoke` and `CallInvoke` frame layouts;
  - the dispatcher: prefix byte, then object, then method on the exact class, then queue or
    direct call.
- The size and latency queries of `Peer.hpp`.

Modules follow the program's structure:

| Module | Where it lives |
|---|---|
| `Types` | shared vocabulary |
| `Codec` | the token-level codec |
| `MessageConverters` | `MessageConverter.hpp` |
| `MethodInvocationConverters` | `MethodInvocationConverter.hpp` |
| `Commands` | `Command.cpp` |
| `PeerLimits` | `Peer.hpp` |
| `Peers` | `Peer.cpp` and the part of `Host` a peer uses |
| `MessagePassing` | `MessagePassingEnvironment.cpp` |
| `MethodInvocation` | `MethodInvocationEnvironment.hpp` and `.cpp` |

How the model is set up:

- **Frames** are sequences of tokens: a prefix byte, a 64-bit id, a string, encoded arguments and
  a 32-bit id.
- **Readers** are a frame, a cursor and a sticky error flag. A read past the end or of the wrong
  token sets the flag and yields a default value.
- **Identity handles.** Peers, hosts, queues, callbacks and handlers appear inside values as
  `nat` handles.
- **Ghost logs.** The calls a component makes are recorded in ghost logs of invocations,
  handler calls, member calls, enqueued commands and reported lookup misses.
- **Parameters.** Three results come from code outside the model and are passed in as
  parameters:
  - the state and plaintext that a cryptographic step leaves behind;
  - the state the host's on-connect callback leaves;
  - the peer `host->_InternalConnect` returns.

## Model

| member | source | states |
|---|---|---|
| `Codec.ReadAfterEncode` | include/icon6/MessageConverter.hpp:59-61 | reading a value of `v`'s type where `v` is encoded yields exactly `v`, and the reader stops just after it without error |
| `Codec.ReadValueShifted` | src/Command.cpp:38-39 | a reader opened on the suffix from `readOffset` reads the same value as a reader at `readOffset` over the whole frame, and stays aligned with it |
| `MessageConverters.Call` | include/icon6/MessageConverter.hpp:55-62 | the handler fixed at construction is called once with the caller's peer and flags and a value of the converter's type; the reader only moves forward |
| `MessageConverters.CallDeliversEncoded` | include/icon6/MessageConverter.hpp:59-61 | over an encoded `v` the handler receives exactly `v` and the reader ends right after it |
| `MessageConverters.CallShifted` | src/Command.cpp:38-40 | a handler call made through a reader over `binaryData[readOffset..]` equals the call made at position `readOffset` of the whole frame |
| `MessageConverters.CallIgnoresQueue` | include/icon6/MessageConverter.hpp:43-62 | the converter's execution queue has no effect on `Call` |
| `MethodInvocationConverters.Call` | include/icon6/MethodInvocationConverter.hpp:69-81 | the stored member function is invoked once on the given object with peer, flags and one decoded argument of its type; the reader only moves forward |
| `MethodInvocationConverters.CallDeliversEncoded` | include/icon6/MethodInvocationConverter.hpp:74-80 | over an encoded `v` the member function receives exactly `v` |
| `MethodInvocationConverters.CallShifted` | src/Command.cpp:45-47 | a call made through a reader over `binaryData[readOffset..]` equals the call made at position `readOffset` of the whole frame |
| `MethodInvocationConverters.CallIgnoresQueue` | include/icon6/MethodInvocationConverter.hpp:52-81 | the converter's execution queue has no effect on `Call` |
| `Commands.Execute` | src/Command.cpp:31-72 | per variant: RPC and RMI run their own converter with their own peer and flags (and, for RMI, their own object) and a reader over exactly `binaryData[readOffset..]`; connect fills in the connect result as `onConnected.peer` and either enqueues it onto its queue or runs it inline; send, disconnect, on-peer and function-pointer commands forward to their one target |
| `Commands.DeferredRpcMatchesDirect` | src/Command.cpp:36-41 | an executed `ExecuteRPC` makes the same handler call as its converter reading the frame in place from `readOffset`, with the command's peer and flags |
| `Commands.DeferredRmiMatchesDirect` | src/Command.cpp:43-48 | an executed `ExecuteRMI` makes the same member call, on the command's object, as its converter reading the frame in place from `readOffset` |
| `Commands.ConnectRunsOnConnectedOnce` | src/Command.cpp:50-57 | deferred or inline, the callback that finally runs after a connect is `onConnected` with the connect result as its peer |
| `Commands.Command.constructor` | src/Command.cpp:77-79 | a default command holds nothing |
| `Commands.Command.Of` | src/MethodInvocationEnvironment.cpp:65 | a command built from a payload holds it |
| `Commands.Command.Moved` | src/Command.cpp:81-85 | the new command takes the source's payload, the source is left empty and nothing is destroyed |
| `Commands.Command.MoveAssign` | src/Command.cpp:87-97 | a payload the target held is destroyed first; the target then takes the source's payload and the source ends empty; self-assignment leaves the command empty |
| `Commands.Command.Destroy` | src/Command.cpp:99-105 | the payload is destroyed if and only if one is held, and the command ends empty |
| `Commands.Command.Run` | src/Command.cpp:107-110 | running a command is running its payload's `Execute` |
| `Commands.MoveThenDestroyBoth` | src/Command.cpp:81-105 | after moving a command and destroying both commands, the payload has been destroyed exactly once, by the target |
| `PeerLimits.GetMTU` | include/icon6/Peer.hpp:44-47 | the MTU is a fixed 1400 |
| `PeerLimits.GetEncryptedMessageOverhead` | include/icon6/Peer.hpp:48-52 | the encryption overhead is 64, below the MTU |
| `PeerLimits.GetEncryptedMTU` | include/icon6/Peer.hpp:53-57 | the encrypted MTU plus the overhead is the MTU, so the unsigned subtraction does not wrap |
| `PeerLimits.GetMaxSinglePackedMessageSize` | include/icon6/Peer.hpp:58-62 | 64 below the encrypted MTU, without wrapping |
| `PeerLimits.SizeBudget` | include/icon6/Peer.hpp:45-63 | the encrypted MTU is 1336, the largest packed message is 1272, and max packed < encrypted MTU < MTU = encrypted MTU + overhead |
| `PeerLimits.GetRoundtripTime` | include/icon6/Peer.hpp:64-68 | always fails |
| `PeerLimits.HalfRoundtrip` | include/icon6/Peer.hpp:69 | `rtt >> 1` is the halving rounded down |
| `PeerLimits.GetLatency` | include/icon6/Peer.hpp:69 | fails with the round-trip query's error, which is always |
| `PeerLimits.IsValid` | include/icon6/Peer.hpp:71-74 | every peer is valid |
| `Peers.PacketOptionsFor` | src/Peer.cpp:59-67 | the send callback's packet options: a reliable or sequenced packet goes on channel 0, and the channel is 0 or 1 |
| `Peers.PacketMapping` | src/Peer.cpp:59-67 | unsequenced iff `FLAG_SEQUENCED` is clear, reliable iff `FLAG_RELIABLE` is set, channel 0 iff either is set and 1 otherwise |
| `Peers.ReceiveSink` | src/Peer.cpp:109-121 | at most one sink receives the data: the peer's callback, else the host's, else the environment; none when all three are absent |
| `Peers.ReceiveStep` | src/Peer.cpp:89-135 | the switch fails exactly in the unlisted state, runs at most one callback, and makes a peer ready only from `SENT_KEX`, from `READY_TO_USE`, or when the crypto step left it ready |
| `Peers.CertificateStep` | src/Peer.cpp:91-93 | in the certificate state the peer takes the state the certificate step leaves, keeps its receive buffer and runs no callback |
| `Peers.HandshakeCompletion` | src/Peer.cpp:95-104 | after the KEX step leaves the peer before its on-connect callback, the host's callback (if any) runs once, and the peer is ready unless the callback moved it elsewhere; any other state the step leaves stands and no callback runs |
| `Peers.ReadyDelivery` | src/Peer.cpp:106-124 | a ready peer's decrypted data reaches the sink chosen by precedence only if the peer is still ready; the state is whatever decryption left |
| `Peers.IgnoredStates` | src/Peer.cpp:126-133 | in the zombie, disconnected and two failure states a packet changes nothing and calls nothing; it throws exactly in the states the switch does not list |
| `Peers.DisconnectCallbackFor` | src/Peer.cpp:141-149 | a disconnect callback runs only on a ready peer, the peer's own taking precedence over the host's |
| `Peers.Host.constructor` | include/icon6/Host.hpp:107-110 | a host starts with its three callbacks and an empty command queue |
| `Peers.Host.EnqueueCommand` | include/icon6/Host.hpp:85 | appends one command to the host's queue |
| `Peers.Peer.constructor` | src/Peer.cpp:32-37 | the per-peer receive and disconnect callbacks start as copies of the host's |
| `Peers.Peer.Send` | src/Peer.cpp:47-72 | fails, enqueuing nothing, unless the peer is ready; when ready, appends exactly one send command with the data, flags, this peer and its host |
| `Peers.Peer.Disconnect` | src/Peer.cpp:75-82 | the command built is never handed to the host: nothing changes |
| `Peers.Peer.SetReceiveCallback` | src/Peer.cpp:84-87 | sets the per-peer receive callback |
| `Peers.Peer.SetDisconnect` | src/Peer.cpp:137-139 | sets the per-peer disconnect callback |
| `Peers.Peer.CallCallbackReceive` | src/Peer.cpp:89-135 | the new state, receive buffer and callbacks run are those of `ReceiveStep` on the old state; on the throw nothing changes |
| `Peers.Peer.CallCallbackDisconnect` | src/Peer.cpp:141-149 | runs exactly the callback `DisconnectCallbackFor` chooses, or none, and leaves the state alone |
| `MessagePassing.Route` | src/MessagePassingEnvironment.cpp:24-28 | a hit yields a registered converter and a valid reader over the same frame |
| `MessagePassing.DispatchCalls` | src/MessagePassingEnvironment.cpp:27-30 | one handler call on a hit, none on a miss |
| `MessagePassing.NamedFrameRouting` | src/MessagePassingEnvironment.cpp:24-30 | a frame led by a name goes to that name's converter with the reader just after the name, or is dropped when the name is unregistered |
| `MessagePassing.DispatchHitOrDrop` | src/MessagePassingEnvironment.cpp:27-31 | on a hit the registered handler runs once with the same peer and flags; a miss calls nothing |
| `MessagePassing.NamedMessageRoundTrip` | src/MessagePassingEnvironment.cpp:22-31 | a frame of a name and an encoded `v` delivers exactly `v` to that name's handler, once |
| `MessagePassing.DispatchIgnoresQueue` | src/MessagePassingEnvironment.cpp:27-30 | named-message dispatch always calls directly, whatever queue the converter holds |
| `MessagePassing.MessagePassingEnvironment.constructor` | examples/example4.cpp:10-11 | an environment starts with no messages and no pending replies |
| `MessagePassing.MessagePassingEnvironment.RegisterMessage` | examples/example4.cpp:77-94 | binds a name to a converter, replacing an earlier binding |
| `MessagePassing.MessagePassingEnvironment.OnReceive` | src/MessagePassingEnvironment.cpp:22-31 | records exactly the handler calls `DispatchCalls` gives and never changes the registry |
| `MethodInvocation.Route` | src/MethodInvocationEnvironment.cpp:46-89 | a frame is passed to the base dispatcher iff it lacks an RMI prefix; an enqueued command is a well-formed `ExecuteRMI` carrying the same frame, peer and flags; a direct call gets a valid reader over the same frame |
| `MethodInvocation.Delivered` | src/MethodInvocationEnvironment.cpp:63-74 | a member call results only from an enqueued command or a direct call |
| `MethodInvocation.HeaderRouting` | src/MethodInvocationEnvironment.cpp:49-81 | for an RMI header, in order: an unknown object id is reported; a name missing from the object's own class table is reported, with no parent lookup; otherwise a method with a queue gets one `ExecuteRMI` (peer, flags, converter, object, offset after the name) enqueued, and one without a queue is called directly with the reader after the name |
| `MethodInvocation.DeferredMatchesDirect` | src/MethodInvocationEnvironment.cpp:63-74 | for a frame whose `[prefix][objectId][name]` header reads cleanly, putting a method on a queue, or taking it off, does not change the member call that results |
| `MethodInvocation.QueuedRereadsAfterFailedName` | src/MethodInvocationEnvironment.cpp:63-74 | when the name read fails, direct dispatch hands the member the default argument, while the queued command re-reads from the same offset with a clean reader and hands it the token the name read rejected |
| `MethodInvocation.FrameDelivers` | src/MethodInvocationEnvironment.cpp:46-89 | an RMI header followed by one encoded argument for a live object and a method of its class ends in one call of that method on that object with that argument, whatever tokens follow |
| `MethodInvocation.InvokeDelivers` | include/icon6/MethodInvocationEnvironment.hpp:116-155 | a `SendInvoke` or `CallInvoke` frame for a live object and a method of its class ends in one call of that method on that object, with the first argument sent |
| `MethodInvocation.Class.constructor` | include/icon6/MethodInvocationEnvironment.hpp:37-38 | a new class has its parent, name and constructor, and no methods |
| `MethodInvocation.Class.RegisterMethod` | include/icon6/MethodInvocationEnvironment.hpp:40-41 | binds a method name to a converter, replacing an earlier binding |
| `MethodInvocation.AllocateReturnCallbackId` | include/icon6/MethodInvocationEnvironment.hpp:140-143 | corrected: the id is neither 0 nor pending, and is the first such id after the generator, wrapping at 32 bits |
| `MethodInvocation.AllocateReturnCallbackIdAsWritten` | include/icon6/MethodInvocationEnvironment.hpp:140-143 | as written, exactly: the first increment is kept unless it is 0 and 0 is pending, in which case the id is 1 |
| `MethodInvocation.AsWrittenIssuesZero` | include/icon6/MethodInvocationEnvironment.hpp:140-143 | from generator `0xFFFFFFFF`, whenever 0 is not pending, the written loop hands out 0 |
| `MethodInvocation.AsWrittenReusesPendingId` | include/icon6/MethodInvocationEnvironment.hpp:140-144 | for every generator whose next id is nonzero and pending, the written loop hands out that pending id |
| `MethodInvocation.ObjectIdsAsWritten` | include/icon6/MethodInvocationEnvironment.hpp:102-106 | as written, the id of each call is its template argument's counter (1 if not yet instantiated) plus the number of earlier calls with that argument, plus one |
| `MethodInvocation.ObjectIdsIncreasePerType` | include/icon6/MethodInvocationEnvironment.hpp:105-106 | as written, the ids of calls with the same template argument strictly increase, and every id is at least 2 |
| `MethodInvocation.ObjectIdsRepeatAcrossTypes` | include/icon6/MethodInvocationEnvironment.hpp:105-106 | the first calls through any two different, not yet instantiated template arguments both get id 2 |
| `MethodInvocation.MethodInvocationEnvironment.constructor` | include/icon6/MethodInvocationEnvironment.hpp:158-159 | an environment starts with no classes and no objects, the id counter at 1 |
| `MethodInvocation.MethodInvocationEnvironment.GetClassByName` | src/MethodInvocationEnvironment.cpp:38-44 | the class registered under the name, or none iff the name is unregistered |
| `MethodInvocation.MethodInvocationEnvironment.Targets` | include/icon6/MethodInvocationEnvironment.hpp:52-57 | each live object with its pointer and its own class's current method table |
| `MethodInvocation.MethodInvocationEnvironment.RegisterClass` | include/icon6/MethodInvocationEnvironment.hpp:67-75 | the name is bound to a new class with the given parent and constructor and no methods, overwriting an earlier class of that name; other names are unchanged |
| `MethodInvocation.MethodInvocationEnvironment.RegisterMemberFunction` | include/icon6/MethodInvocationEnvironment.hpp:77-92 | fails with the source's message and changes nothing on an unknown class; otherwise binds the method name to a converter with the given queue in that class's table |
| `MethodInvocation.MethodInvocationEnvironment.GetObject` | include/icon6/MethodInvocationEnvironment.hpp:94-100 | the stored pointer iff the id is a live object, else none |
| `MethodInvocation.MethodInvocationEnvironment.CreateLocalObject` | include/icon6/MethodInvocationEnvironment.hpp:102-114 | corrected: the id is the counter plus one and exceeds every live id, so the first is 2; it is consumed even for an unknown class; a known class stores `{constructed instance, class}` under it, an unknown one leaves the objects unchanged and returns none |
| `MethodInvocation.MethodInvocationEnvironment.SendInvoke` | include/icon6/MethodInvocationEnvironment.hpp:116-129 | hands `Peer::Send` exactly `[METHOD_SEND_PREFIX][objectId][name][args...]` with the given flags |
| `MethodInvocation.MethodInvocationEnvironment.CallInvoke` | include/icon6/MethodInvocationEnvironment.hpp:131-155 | registers the callback under a fresh nonzero id whether or not the send succeeds, then sends `[METHOD_CALL_PREFIX][objectId][name][args...][returnCallbackId]` |
| `MethodInvocation.MethodInvocationEnvironment.OnReceive` | src/MethodInvocationEnvironment.cpp:46-89 | exactly one of: base dispatch, one direct member call, one enqueued command, or one reported miss, as `Route` decides; the registries do not change |
| `MethodInvocation.MethodInvocationEnvironment.Clear` | src/MethodInvocationEnvironment.cpp:25-36 | the object and class registries end empty, and the environment's invariant still holds |
| `MethodInvocation.ExampleClasses` | examples/example4.cpp:96-102 | the fourth example's registrations leave `TestClass` with both methods, `Method2` on the queue, `InheritedClass` with an empty own table, and no objects |
| `MethodInvocation.ExampleSetUp` | examples/example4.cpp:96-106 | the registrations of the fourth example give object 2 (`TestClass`) both methods and object 3 (`InheritedClass`) an empty table |
| `MethodInvocation.InheritedMethodScenario` | examples/example4.cpp:96-125 | in that set-up, `Method2` on the `InheritedClass` object is reported not found, and on the `TestClass` object it is enqueued and, once run, receives `"asdf"` |

## Left out

- Transport I/O is not modelled: ENet packet creation and sending, encryption of outgoing
  data, `enet_peer_disconnect`, the Steam networking types, and `Host::_InternalConnect`.
  `Peers.PacketOptionsFor` models only the packet flags and the channel.
- `Peers.PacketOptionsFor` and `Peers.PacketMapping` stand alone. In `Peer.cpp` the mapping
  runs inside the transport step of a send, so no send command or effect in the model records
  packet options.
- In this revision `Peer::Send` and `Peer::Disconnect` build a `Command` with a transport
  callback. The model represents these as the `ExecuteSend` and `ExecuteDisconnect` payloads of
  `Command.cpp`.
- Cryptography is not modelled: the certificate and key-exchange steps, `DecryptMessage`, and
  encrypted lengths. Their outcome is a parameter.
- The on-connect callback's other effects are not modelled. The only one captured is the state
  it leaves.
- The on-connect callback is taken from the host only, as `Peer.cpp` does: `Peer.cpp` has no
  per-peer on-connect field.
- Concurrency is not modelled:
  - the concurrent command queue, the lock on the reply-callback map, and asynchronous
    execution queues;
  - queues are sequential logs.
- The byte-level `ByteWriter`/`ByteReader` codec is not part of this model. Frames are token
  sequences. As a result the model does not capture that a name string's first byte could be
  mistaken for an RMI prefix byte.
- Only three argument types are modelled: integers, strings and integer lists. Each converter
  decodes one argument, so trailing arguments in a frame are ignored.
- The constant values are assumed, because the header that defines them is not part of this
  model. Only their distinctness matters:
  - `METHOD_SEND_PREFIX` = 1 and `METHOD_CALL_PREFIX` = 2;
  - `FLAG_RELIABLE` = 1 and `FLAG_SEQUENCED` = 2.
- A frame with no tokens is passed to the base dispatcher. The source reads its first byte
  without a bounds check.
- `Command.hpp`, `MessagePassingEnvironment.hpp` and `Host.cpp` are not part of this model:
  - payload constructors and Host setters are not modelled;
  - `MessagePassingEnvironment::Send` is not modelled;
  - reply handling for `RETURN_CALLBACK` frames is not modelled, since no `OnReceive` in
    `MessagePassingEnvironment.cpp` or `MethodInvocationEnvironment.cpp` handles them;
  - whether repeated disconnects are harmless depends on the host's transport code.
- `Class::inheritedClasses`, the converter's `_class` back-pointer and the deletion of
  converters and classes in the destructor are not modelled.
  `MethodInvocationEnvironment::OnReceive` uses none of them.
- Three members rest on assumptions about code outside the modelled files, because their cited
  lines are calls or declarations only:
  - `MessagePassing.MessagePassingEnvironment.RegisterMessage` assumes that registering a name
    again replaces the earlier handler;
  - `MethodInvocation.Class.RegisterMethod` makes the same assumption for method names;
  - `MessagePassing.MessagePassingEnvironment.constructor` assumes that the registries start
    empty and that `returnCallCallbackIdGenerator` starts at 0.
- `MethodInvocation.DeferredMatchesDirect` holds only for frames whose header reads cleanly. A
  queued RMI re-reads from `readOffset` with the error flag cleared. So on a frame whose name
  read fails, it can deliver a different value from direct dispatch, as
  `MethodInvocation.QueuedRereadsAfterFailedName` shows.
- `Peer::Destroy` is not part of the core: it only clears the transport pointers.
- The byte-copy and placement destruction inside `Command`'s move assignment are modelled by
  their effect on `hasValue` and the payload.
- `MethodInvocation.MethodInvocationEnvironment.CreateLocalObject`:
  - ids are unbounded, so the model omits the 64-bit counter wrapping after 2^64 - 2 objects;
  - the counter is one per environment rather than one function-local static per template
    argument (see Findings).
- `MethodInvocation.MethodInvocationEnvironment.CallInvoke`:
  - it requires fewer than 2^32 - 1 pending replies, so that a free id exists, whereas the
    source demands nothing;
  - it uses the corrected id loop (see Findings).
- `MethodInvocation.AllocateReturnCallbackId`: it requires fewer than 2^32 - 1 pending ids, so
  that the loop ends.

## Findings

| source | as written | input that shows it | evidently intended | confidence | as-written member | corrected member |
|---|---|---|---|---|---|---|
| include/icon6/MethodInvocationEnvironment.hpp:140-143 | the id loop repeats only while the id is 0 AND 0 is already registered | generator `0xFFFFFFFF` with nothing pending gives id 0; generator 4 with 5 pending gives 5, whose callback line 144 then overwrites | repeat while the id is 0 OR already registered | medium; not executed | `MethodInvocation.AllocateReturnCallbackIdAsWritten` | `MethodInvocation.AllocateReturnCallbackId` |
| include/icon6/MethodInvocationEnvironment.hpp:105-106 | the counter is a function-local `static` inside a member function template, so each template argument has its own counter starting at 1 | `CreateLocalObject<TestClass>` then `CreateLocalObject<void>` both give id 2, and the second object replaces the first in `objects` | one counter for every object in the map | medium; not executed | `MethodInvocation.ObjectIdsAsWritten` | `MethodInvocation.MethodInvocationEnvironment.CreateLocalObject` |

`MethodInvocation.AsWrittenIssuesZero` and `MethodInvocation.AsWrittenReusesPendingId` prove the
first row for every input of each kind, and the inputs named there are instances.
`MethodInvocation.ObjectIdsRepeatAcrossTypes` proves the second row for any two distinct template
arguments that are not yet instantiated. The rest of the model uses the corrected members.
