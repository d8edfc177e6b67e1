/** The size and timing queries of `Peer` (the inline functions of its header):
    fixed constants standing in for values the transport does not yet report. */
module PeerLimits {
  import opened Types

  /** `GetMTU()`: a fixed 1400 bytes until the transport reports its own. */
  function GetMTU(): (r: u32)
    ensures r == 1400
  {
    1400
  }

  /** `GetEncryptedMessageOverhead()`: the bytes encryption adds, less than the MTU. */
  function GetEncryptedMessageOverhead(): (r: u32)
    ensures r == 64 && r < GetMTU()
  {
    64
  }

  /** `GetEncryptedMTU()`: what remains of the MTU after the encryption
      overhead; the unsigned subtraction does not wrap. */
  function GetEncryptedMTU(): (r: u32)
    ensures r + GetEncryptedMessageOverhead() == GetMTU()
  {
    GetMTU() - GetEncryptedMessageOverhead()
  }

  /** `GetMaxSinglePackedMessageSize()`: 64 bytes below the encrypted MTU,
      again without wrapping. */
  function GetMaxSinglePackedMessageSize(): (r: u32)
    ensures r + 64 == GetEncryptedMTU() && r < GetEncryptedMTU()
  {
    GetEncryptedMTU() - 64
  }

  /** The budget for one packed message leaves room for the encryption overhead,
      which in turn fits in the transport's MTU. */
  lemma SizeBudget()
    ensures GetEncryptedMTU() == 1336 && GetMaxSinglePackedMessageSize() == 1272
    ensures GetMaxSinglePackedMessageSize() < GetEncryptedMTU() < GetMTU()
    ensures GetEncryptedMTU() + GetEncryptedMessageOverhead() == GetMTU()
  {
  }

  /** `GetRoundtripTime()` is not implemented: it always throws. */
  function GetRoundtripTime(): (r: Result<u32>)
    ensures r.Err?
  {
    Err("Peer::GetRoundTripUnimplemented")
  }

  /** `rtt >> 1` on an unsigned word: halving, rounded down. */
  function HalfRoundtrip(rtt: u32): (r: u32)
    ensures 2 * r <= rtt <= 2 * r + 1
  {
    rtt / 2
  }

  /** `GetLatency()` halves the round-trip time, so it throws whenever that does,
      which is always. */
  function GetLatency(): (r: Result<u32>)
    ensures r == Err(GetRoundtripTime().error)
  {
    match GetRoundtripTime()
    case Ok(rtt) => Ok(HalfRoundtrip(rtt))
    case Err(e) => Err(e)
  }

  /** `IsValid()` is a placeholder that accepts every peer. */
  function IsValid(): (b: bool)
    ensures b
  {
    true
  }
}
