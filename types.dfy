/** Vocabulary shared by every part of the model: machine integers, the flags
    word that travels with every send, identity handles for the objects the
    middleware only refers to, and the usual Option / Outcome wrappers. */
module Types {

  type byte = x: int | 0 <= x < 0x100
  type u32 = x: int | 0 <= x < 0x1_0000_0000
  type u64 = x: int | 0 <= x < 0x1_0000_0000_0000_0000

  /** One past the largest `uint32_t`; `++` on a `uint32_t` wraps modulo this. */
  const U32_MODULUS: int := 0x1_0000_0000

  /** The `Flags` word passed with every send and handed to every callback. */
  type Flags = bv32

  /** Bits of the flags word read by the packet mapping in `Peer::Send`.
      Only their being two distinct single bits matters to the model. */
  const FLAG_RELIABLE: Flags := 1
  const FLAG_SEQUENCED: Flags := 2

  /** Identities of things the core holds pointers to but never looks into. */
  type PeerRef = nat          // a `Peer*` / `std::shared_ptr<Peer>`
  type HostRef = nat          // a `Host*` / `std::shared_ptr<Host>`
  type QueueRef = nat         // a `std::shared_ptr<CommandExecutionQueue>`
  type CallbackRef = nat      // a user function pointer (receive, connect, disconnect, ...)
  type HandlerRef = nat       // the `onReceive` pointer held by a message converter
  type MemberRef = nat        // a pointer to member function held by a method converter
  type FunctionRef = nat      // a plain function pointer or closure run by a command
  type ConstructorRef = nat   // the `constructor` of an RMI `Class`
  type SharedRef = nat        // an opaque `std::shared_ptr<void>` payload

  /** An instance built by a class constructor; `serial` tells instances apart. */
  datatype Instance = Instance(constructedBy: ConstructorRef, serial: nat)

  datatype Option<T> = None | Some(value: T)

  /** The result of an operation that either returns normally or throws. */
  datatype Outcome = Pass | Fail(error: string)

  /** A value, or the exception thrown instead of returning it. */
  datatype Result<T> = Ok(value: T) | Err(error: string)
}
