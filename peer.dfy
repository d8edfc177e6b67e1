/** `Peer`: one connection and its handshake / lifecycle state machine, plus
    the part of `Host` a peer touches (its command queue and default
    callbacks). Transport and cryptography are outside the model: the state
    and plaintext a crypto step leaves behind are parameters, and what the
    on-connect callback does to the state is a parameter too. */
module Peers {
  import opened Types
  import opened Codec
  import opened Commands

  datatype PeerState =
    | STATE_SENT_CERT
    | STATE_SENT_KEX
    | STATE_BEFORE_ON_CONNECT_CALLBACK
    | STATE_READY_TO_USE
    | STATE_DISCONNECTED
    | STATE_ZOMBIE
    | STATE_FAILED_TO_AUTHENTICATE
    | STATE_FAILED_TO_VERIFY_MESSAGE
  {
    /** The states in which an inbound packet is dropped. */
    predicate Ignores() {
      STATE_ZOMBIE? || STATE_DISCONNECTED? || STATE_FAILED_TO_AUTHENTICATE? || STATE_FAILED_TO_VERIFY_MESSAGE?
    }
  }

  /** A user callback invocation made by a peer. */
  datatype Invocation =
    | ConnectCallback(callback: CallbackRef, peer: PeerRef)
    | ReceiveCallback(callback: CallbackRef, peer: PeerRef, data: Frame, flags: Flags)
    | EnvironmentReceive(peer: PeerRef, data: Frame, flags: Flags)
    | DisconnectCallback(callback: CallbackRef, peer: PeerRef, disconnectData: u32)

  // ------------------------------------------------------------ packet mapping

  /** How the transport step of a send packs the data: ENet's unsequenced and
      reliable packet flags, and the channel. */
  datatype PacketOptions = PacketOptions(unsequenced: bool, reliable: bool, channel: nat)

  /** The send callback's packet flags and channel for the command's flags:
      a reliable or sequenced packet always goes on channel 0. */
  function PacketOptionsFor(flags: Flags): (o: PacketOptions)
    ensures o.reliable || !o.unsequenced ==> o.channel == 0
    ensures o.channel <= 1
  {
    PacketOptions(
      flags & FLAG_SEQUENCED == 0,
      flags & FLAG_RELIABLE != 0,
      if flags & (FLAG_RELIABLE | FLAG_SEQUENCED) != 0 then 0 else 1)
  }

  /** Unsequenced unless sequenced was asked for, reliable exactly when asked
      for, and channel 0 exactly when either was asked for (else channel 1). */
  lemma PacketMapping(flags: Flags)
    ensures var o := PacketOptionsFor(flags);
      && (o.unsequenced <==> flags & FLAG_SEQUENCED == 0)
      && (o.reliable <==> flags & FLAG_RELIABLE != 0)
      && (o.channel == 0 <==> o.reliable || !o.unsequenced)
      && (o.channel == 0 || o.channel == 1)
  {
  }

  // ------------------------------------------------------------ inbound packets

  /** What the cryptographic step of `CallCallbackReceive` leaves behind: the
      peer's state, and for `DecryptMessage` the plaintext in `receivedData`. */
  datatype CryptoStep = CryptoStep(state: PeerState, plaintext: Frame)

  /** The host fields a peer consults. */
  datatype HostCallbacks = HostCallbacks(
    onConnect: Option<CallbackRef>,
    onReceive: Option<CallbackRef>,
    onDisconnect: Option<CallbackRef>,
    hasEnvironment: bool)

  /** The receive sink: the peer's callback, else the host's, else the host's
      message-passing environment, else nothing. */
  function ReceiveSink(peer: PeerRef, own: Option<CallbackRef>, host: HostCallbacks, data: Frame, flags: Flags)
    : (calls: seq<Invocation>)
    ensures |calls| <= 1
    ensures |calls| == 1 <==> own.Some? || host.onReceive.Some? || host.hasEnvironment
    ensures own.Some? ==> calls == [ReceiveCallback(own.value, peer, data, flags)]
    ensures own.None? && host.onReceive.Some? ==> calls == [ReceiveCallback(host.onReceive.value, peer, data, flags)]
    ensures own.None? && host.onReceive.None? && host.hasEnvironment ==> calls == [EnvironmentReceive(peer, data, flags)]
  {
    if own.Some? then [ReceiveCallback(own.value, peer, data, flags)]
    else if host.onReceive.Some? then [ReceiveCallback(host.onReceive.value, peer, data, flags)]
    else if host.hasEnvironment then [EnvironmentReceive(peer, data, flags)]
    else []
  }

  /** A peer's state and receive buffer after a packet, with the callbacks run. */
  datatype ReceiveOutcome = ReceiveOutcome(state: PeerState, receivedData: Frame, calls: seq<Invocation>)

  /** `CallCallbackReceive`: the switch on `state`. `afterOnConnect` is the state
      the host's on-connect callback leaves, when it runs. */
  function ReceiveStep(s: PeerState, receivedData: Frame, peer: PeerRef, own: Option<CallbackRef>,
                       host: HostCallbacks, step: CryptoStep, afterOnConnect: PeerState, flags: Flags)
    : (r: Result<ReceiveOutcome>)
    ensures r.Err? <==> s == STATE_BEFORE_ON_CONNECT_CALLBACK
    ensures r.Ok? ==> |r.value.calls| <= 1
    ensures r.Ok? && r.value.state == STATE_READY_TO_USE ==> s == STATE_SENT_KEX || s == STATE_READY_TO_USE || step.state == STATE_READY_TO_USE
  {
    match s
    case STATE_SENT_CERT =>
      Ok(ReceiveOutcome(step.state, receivedData, []))
    case STATE_SENT_KEX =>
      if step.state != STATE_BEFORE_ON_CONNECT_CALLBACK then
        Ok(ReceiveOutcome(step.state, receivedData, []))
      else if host.onConnect.None? then
        Ok(ReceiveOutcome(STATE_READY_TO_USE, receivedData, []))
      else
        var next := if afterOnConnect == STATE_BEFORE_ON_CONNECT_CALLBACK then STATE_READY_TO_USE else afterOnConnect;
        Ok(ReceiveOutcome(next, receivedData, [ConnectCallback(host.onConnect.value, peer)]))
    case STATE_READY_TO_USE =>
      if step.state == STATE_READY_TO_USE then
        Ok(ReceiveOutcome(STATE_READY_TO_USE, step.plaintext, ReceiveSink(peer, own, host, step.plaintext, flags)))
      else
        Ok(ReceiveOutcome(step.state, step.plaintext, []))
    case STATE_BEFORE_ON_CONNECT_CALLBACK =>
      Err("icon6::Peer::CallCallbackReceive other states handling is invalid")
    case _ =>
      Ok(ReceiveOutcome(s, receivedData, []))
  }

  /** A packet in the certificate state: the peer takes the state the
      certificate step leaves, its receive buffer is kept, and no callback
      runs, not even the host's on-connect callback. */
  lemma CertificateStep(receivedData: Frame, peer: PeerRef, own: Option<CallbackRef>, host: HostCallbacks,
                        step: CryptoStep, afterOnConnect: PeerState, flags: Flags)
    ensures ReceiveStep(STATE_SENT_CERT, receivedData, peer, own, host, step, afterOnConnect, flags)
            == Ok(ReceiveOutcome(step.state, receivedData, []))
  {
  }

  /** Finishing the key exchange: when the KEX step leaves the peer before its
      on-connect callback, the host's callback (if any) runs exactly once, and
      the peer becomes ready unless that callback moved it elsewhere. Any other
      state left by the KEX step stands, and no callback runs. */
  lemma HandshakeCompletion(receivedData: Frame, peer: PeerRef, own: Option<CallbackRef>, host: HostCallbacks,
                            step: CryptoStep, afterOnConnect: PeerState, flags: Flags)
    ensures var r := ReceiveStep(STATE_SENT_KEX, receivedData, peer, own, host, step, afterOnConnect, flags);
      && r.Ok? && r.value.receivedData == receivedData
      && (step.state != STATE_BEFORE_ON_CONNECT_CALLBACK ==> r.value.state == step.state && r.value.calls == [])
      && (step.state == STATE_BEFORE_ON_CONNECT_CALLBACK && host.onConnect.None? ==>
            r.value.state == STATE_READY_TO_USE && r.value.calls == [])
      && (step.state == STATE_BEFORE_ON_CONNECT_CALLBACK && host.onConnect.Some? ==>
            r.value.calls == [ConnectCallback(host.onConnect.value, peer)]
            && (r.value.state == STATE_READY_TO_USE <==>
                 afterOnConnect == STATE_BEFORE_ON_CONNECT_CALLBACK || afterOnConnect == STATE_READY_TO_USE)
            && (afterOnConnect != STATE_BEFORE_ON_CONNECT_CALLBACK ==> r.value.state == afterOnConnect))
  {
  }

  /** Application data on a ready peer reaches exactly one sink, chosen by
      precedence, and only if decryption left the peer ready. */
  lemma ReadyDelivery(receivedData: Frame, peer: PeerRef, own: Option<CallbackRef>, host: HostCallbacks,
                      step: CryptoStep, afterOnConnect: PeerState, flags: Flags)
    ensures var r := ReceiveStep(STATE_READY_TO_USE, receivedData, peer, own, host, step, afterOnConnect, flags);
      && r.Ok? && r.value.state == step.state && r.value.receivedData == step.plaintext
      && (step.state != STATE_READY_TO_USE ==> r.value.calls == [])
      && (step.state == STATE_READY_TO_USE ==>
            r.value.calls == ReceiveSink(peer, own, host, step.plaintext, flags)
            && (|r.value.calls| == 1 <==> own.Some? || host.onReceive.Some? || host.hasEnvironment))
  {
  }

  /** In a terminal state a packet changes nothing and calls nothing; in a
      state the switch does not list, it throws. */
  lemma IgnoredStates(s: PeerState, receivedData: Frame, peer: PeerRef, own: Option<CallbackRef>,
                      host: HostCallbacks, step: CryptoStep, afterOnConnect: PeerState, flags: Flags)
    ensures var r := ReceiveStep(s, receivedData, peer, own, host, step, afterOnConnect, flags);
      && (s.Ignores() ==> r == Ok(ReceiveOutcome(s, receivedData, [])))
      && (r.Err? <==> !s.Ignores() && !s.STATE_SENT_CERT? && !s.STATE_SENT_KEX? && !s.STATE_READY_TO_USE?)
  {
  }

  // ------------------------------------------------------------ disconnect

  /** `CallCallbackDisconnect`: the callback that runs, the peer's taking
      precedence over the host's, and only on a ready peer. */
  function DisconnectCallbackFor(s: PeerState, own: Option<CallbackRef>, hostOwn: Option<CallbackRef>)
    : (cb: Option<CallbackRef>)
    ensures cb.Some? ==> s == STATE_READY_TO_USE
    ensures s == STATE_READY_TO_USE && own.Some? ==> cb == own
    ensures s == STATE_READY_TO_USE && own.None? ==> cb == hostOwn
  {
    if s != STATE_READY_TO_USE then None
    else if own.Some? then own
    else hostOwn
  }

  // ------------------------------------------------------------ objects

  /** The part of `Host` that peers use. `commands` is the host's command
      queue, a FIFO drained by the network thread. */
  class Host {
    const id: HostRef
    var commands: seq<Payload>
    var callbackOnConnect: Option<CallbackRef>
    var callbackOnReceive: Option<CallbackRef>
    var callbackOnDisconnect: Option<CallbackRef>
    var hasEnvironment: bool

    constructor (id: HostRef, onConnect: Option<CallbackRef>, onReceive: Option<CallbackRef>,
                 onDisconnect: Option<CallbackRef>, hasEnvironment: bool)
      ensures this.id == id && commands == []
      ensures callbackOnConnect == onConnect && callbackOnReceive == onReceive
      ensures callbackOnDisconnect == onDisconnect && this.hasEnvironment == hasEnvironment
    {
      this.id := id;
      commands := [];
      callbackOnConnect := onConnect;
      callbackOnReceive := onReceive;
      callbackOnDisconnect := onDisconnect;
      this.hasEnvironment := hasEnvironment;
    }

    function Callbacks(): HostCallbacks
      reads this
    {
      HostCallbacks(callbackOnConnect, callbackOnReceive, callbackOnDisconnect, hasEnvironment)
    }

    /** `EnqueueCommand(std::move(command))`. */
    method EnqueueCommand(p: Payload)
      modifies this`commands
      ensures commands == old(commands) + [p]
    {
      commands := commands + [p];
    }
  }

  class Peer {
    const id: PeerRef
    const host: Host
    var state: PeerState
    var callbackOnReceive: Option<CallbackRef>
    var callbackOnDisconnect: Option<CallbackRef>
    var receivedData: Frame
    /** The user callbacks this peer has run, in order. */
    ghost var calls: seq<Invocation>

    /** `Peer(host, peer)`: the per-peer callbacks start as copies of the
        host's. `Peer::Peer` in `Peer.cpp` does not set `state`, so the
        initial state is a parameter here. */
    constructor (host: Host, id: PeerRef, initial: PeerState)
      ensures this.host == host && this.id == id && state == initial
      ensures callbackOnReceive == host.callbackOnReceive
      ensures callbackOnDisconnect == host.callbackOnDisconnect
      ensures receivedData == [] && calls == []
    {
      this.host := host;
      this.id := id;
      state := initial;
      callbackOnReceive := host.callbackOnReceive;
      callbackOnDisconnect := host.callbackOnDisconnect;
      receivedData := [];
      calls := [];
    }

    /** `Send(data, flags)`: refused (thrown) before the handshake is done;
        otherwise exactly one send command, for this peer and its host, goes
        onto the host's queue. */
    method Send(data: Frame, flags: Flags) returns (r: Outcome)
      modifies host`commands
      ensures r.Pass? <==> state == STATE_READY_TO_USE
      ensures host.commands == old(host.commands) + (if r.Pass? then [ExecuteSend(id, host.id, data, flags)] else [])
    {
      if state != STATE_READY_TO_USE {
        return Fail("Peer::Send Handshake is not finished yet. Sending is not posible.");
      }
      var com := ExecuteSend(id, host.id, data, flags);
      host.EnqueueCommand(com);
      r := Pass;
    }

    /** `Disconnect(disconnectData)`: builds a disconnect command and drops it
        without handing it to the host, so nothing changes. */
    method Disconnect(disconnectData: u32)
      ensures unchanged(this, host)
    {
      var com := ExecuteDisconnect(id, disconnectData);
    }

    method SetReceiveCallback(callback: Option<CallbackRef>)
      modifies this`callbackOnReceive
      ensures callbackOnReceive == callback
    {
      callbackOnReceive := callback;
    }

    method SetDisconnect(callback: Option<CallbackRef>)
      modifies this`callbackOnDisconnect
      ensures callbackOnDisconnect == callback
    {
      callbackOnDisconnect := callback;
    }

    /** `CallCallbackReceive(data, size, flags)`; a throw leaves the peer as it was. */
    method CallCallbackReceive(flags: Flags, step: CryptoStep, afterOnConnect: PeerState) returns (r: Outcome)
      modifies this`state, this`receivedData, this`calls
      ensures var o := ReceiveStep(old(state), old(receivedData), id, callbackOnReceive, host.Callbacks(),
                                   step, afterOnConnect, flags);
        && (r.Pass? <==> o.Ok?)
        && (o.Ok? ==> state == o.value.state && receivedData == o.value.receivedData
                      && calls == old(calls) + o.value.calls)
        && (o.Err? ==> state == old(state) && receivedData == old(receivedData) && calls == old(calls))
    {
      r := Pass;
      match state
      case STATE_SENT_CERT =>
        state := step.state;
      case STATE_SENT_KEX =>
        state := step.state;
        if state == STATE_BEFORE_ON_CONNECT_CALLBACK {
          if host.callbackOnConnect.Some? {
            calls := calls + [ConnectCallback(host.callbackOnConnect.value, id)];
            state := afterOnConnect;
          }
          if state == STATE_BEFORE_ON_CONNECT_CALLBACK {
            state := STATE_READY_TO_USE;
          }
        }
      case STATE_READY_TO_USE =>
        receivedData, state := step.plaintext, step.state;
        if state == STATE_READY_TO_USE {
          if callbackOnReceive.Some? {
            calls := calls + [ReceiveCallback(callbackOnReceive.value, id, receivedData, flags)];
          } else if host.callbackOnReceive.Some? {
            calls := calls + [ReceiveCallback(host.callbackOnReceive.value, id, receivedData, flags)];
          } else if host.hasEnvironment {
            calls := calls + [EnvironmentReceive(id, receivedData, flags)];
          }
        }
      case STATE_ZOMBIE =>
      case STATE_DISCONNECTED =>
      case STATE_FAILED_TO_AUTHENTICATE =>
      case STATE_FAILED_TO_VERIFY_MESSAGE =>
      case STATE_BEFORE_ON_CONNECT_CALLBACK =>
        r := Fail("icon6::Peer::CallCallbackReceive other states handling is invalid");
    }

    /** `CallCallbackDisconnect(data)`: runs at most one callback and leaves the
        state as it is. */
    method CallCallbackDisconnect(disconnectData: u32)
      modifies this`calls
      ensures var cb := DisconnectCallbackFor(state, callbackOnDisconnect, host.callbackOnDisconnect);
        calls == old(calls) + (if cb.Some? then [DisconnectCallback(cb.value, id, disconnectData)] else [])
    {
      if state == STATE_READY_TO_USE {
        if callbackOnDisconnect.Some? {
          calls := calls + [DisconnectCallback(callbackOnDisconnect.value, id, disconnectData)];
        } else if host.callbackOnDisconnect.Some? {
          calls := calls + [DisconnectCallback(host.callbackOnDisconnect.value, id, disconnectData)];
        }
      }
    }
  }
}
