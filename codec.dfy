/** The wire codec as the core sees it. A frame is a sequence of tokens (a
    prefix byte, a 64-bit object id, a name string, encoded arguments, a
    32-bit correlation id); a reader is a frame with a cursor and an error
    flag that, once set, makes every further read yield a default value.
    This stands in for the byte-level `ByteWriter` / `ByteReader` codec,
    which is not part of this model. */
module Codec {
  import opened Types

  datatype Token =
    | TByte(b: byte)
    | TU32(word: u32)
    | TU64(quad: u64)
    | TLen(count: nat)     // the element count in front of an encoded sequence
    | TInt(i: int)
    | TStr(s: string)

  type Frame = seq<Token>

  /** The argument types that handlers in the model declare. */
  datatype Kind = IntKind | StringKind | IntListKind

  datatype Value = VInt(i: int) | VString(s: string) | VIntList(xs: seq<int>)

  function KindOf(v: Value): Kind {
    match v
    case VInt(_) => IntKind
    case VString(_) => StringKind
    case VIntList(_) => IntListKind
  }

  /** The value a default-constructed `T message;` holds before it is read. */
  function Default(k: Kind): (v: Value)
    ensures KindOf(v) == k
  {
    match k
    case IntKind => VInt(0)
    case StringKind => VString("")
    case IntListKind => VIntList([])
  }

  // ---------------------------------------------------------------- writing

  function IntTokens(xs: seq<int>): (f: Frame)
    ensures |f| == |xs|
    ensures forall k :: 0 <= k < |xs| ==> f[k] == TInt(xs[k])
  {
    seq(|xs|, k requires 0 <= k < |xs| => TInt(xs[k]))
  }

  /** What `writer.op(v)` appends for one value. */
  function Encode(v: Value): (f: Frame)
    ensures |f| >= 1
  {
    match v
    case VInt(i) => [TInt(i)]
    case VString(s) => [TStr(s)]
    case VIntList(xs) => [TLen(|xs|)] + IntTokens(xs)
  }

  /** What the fold `(writer.op(args), ...)` appends for an argument pack. */
  function EncodeAll(vs: seq<Value>): Frame {
    if vs == [] then [] else Encode(vs[0]) + EncodeAll(vs[1..])
  }

  // ---------------------------------------------------------------- reading

  datatype Reader = Reader(data: Frame, pos: nat, error: bool) {
    predicate Valid() { pos <= |data| }
  }

  /** A fresh reader at the start of a frame. */
  function Open(data: Frame): (r: Reader)
    ensures r.Valid() && r.pos == 0 && !r.error
  {
    Reader(data, 0, false)
  }

  /** A value read and the reader after it. */
  datatype Read<T> = Read(value: T, rest: Reader)

  /** The token under the cursor, unless the reader has failed or is at the end. */
  function Next(r: Reader): (t: Option<Token>)
    requires r.Valid()
    ensures t.Some? <==> !r.error && r.pos < |r.data|
  {
    if !r.error && r.pos < |r.data| then Some(r.data[r.pos]) else None
  }

  function Advance(r: Reader): (s: Reader)
    requires r.Valid() && r.pos < |r.data|
    ensures s.Valid()
  {
    r.(pos := r.pos + 1)
  }

  function Failed(r: Reader): Reader {
    r.(error := true)
  }

  /** Readers that only ever move forward over the same frame. */
  predicate Follows(r: Reader, s: Reader) {
    s.Valid() && s.data == r.data && s.pos >= r.pos && (r.error ==> s.error)
  }

  function ReadByte(r: Reader): (res: Read<byte>)
    requires r.Valid()
    ensures Follows(r, res.rest)
  {
    match Next(r)
    case Some(TByte(b)) => Read(b, Advance(r))
    case _ => Read(0, Failed(r))
  }

  function ReadU32(r: Reader): (res: Read<u32>)
    requires r.Valid()
    ensures Follows(r, res.rest)
  {
    match Next(r)
    case Some(TU32(n)) => Read(n, Advance(r))
    case _ => Read(0, Failed(r))
  }

  function ReadU64(r: Reader): (res: Read<u64>)
    requires r.Valid()
    ensures Follows(r, res.rest)
  {
    match Next(r)
    case Some(TU64(n)) => Read(n, Advance(r))
    case _ => Read(0, Failed(r))
  }

  function ReadLen(r: Reader): (res: Read<nat>)
    requires r.Valid()
    ensures Follows(r, res.rest)
  {
    match Next(r)
    case Some(TLen(n)) => Read(n, Advance(r))
    case _ => Read(0, Failed(r))
  }

  function ReadInt(r: Reader): (res: Read<int>)
    requires r.Valid()
    ensures Follows(r, res.rest)
  {
    match Next(r)
    case Some(TInt(i)) => Read(i, Advance(r))
    case _ => Read(0, Failed(r))
  }

  function ReadString(r: Reader): (res: Read<string>)
    requires r.Valid()
    ensures Follows(r, res.rest)
  {
    match Next(r)
    case Some(TStr(s)) => Read(s, Advance(r))
    case _ => Read("", Failed(r))
  }

  function ReadInts(r: Reader, n: nat): (res: Read<seq<int>>)
    requires r.Valid()
    ensures Follows(r, res.rest) && |res.value| == n
    decreases n
  {
    if n == 0 then Read([], r)
    else
      var x := ReadInt(r);
      var xs := ReadInts(x.rest, n - 1);
      Read([x.value] + xs.value, xs.rest)
  }

  /** What `reader.op(message)` does for a `message` of the given kind. */
  function ReadValue(r: Reader, k: Kind): (res: Read<Value>)
    requires r.Valid()
    ensures Follows(r, res.rest) && KindOf(res.value) == k
  {
    match k
    case IntKind =>
      var x := ReadInt(r);
      Read(VInt(x.value), x.rest)
    case StringKind =>
      var s := ReadString(r);
      Read(VString(s.value), s.rest)
    case IntListKind =>
      var n := ReadLen(r);
      var xs := ReadInts(n.rest, n.value);
      Read(VIntList(xs.value), xs.rest)
  }

  // ---------------------------------------------------------------- round trip

  /** `data` holds `f` starting at position `p`. */
  predicate HoldsAt(data: Frame, p: nat, f: Frame) {
    p + |f| <= |data| && data[p..p + |f|] == f
  }

  lemma {:induction false} ReadIntsAfterEncode(xs: seq<int>, data: Frame, p: nat)
    requires HoldsAt(data, p, IntTokens(xs))
    ensures ReadInts(Reader(data, p, false), |xs|) == Read(xs, Reader(data, p + |xs|, false))
    decreases |xs|
  {
    if xs != [] {
      assert data[p] == data[p..p + |xs|][0] == TInt(xs[0]);
      assert HoldsAt(data, p + 1, IntTokens(xs[1..])) by {
        forall k | 0 <= k < |xs| - 1
          ensures data[p + 1..p + |xs|][k] == IntTokens(xs[1..])[k]
        {
          assert data[p + 1 + k] == data[p..p + |xs|][k + 1];
        }
      }
      ReadIntsAfterEncode(xs[1..], data, p + 1);
      assert [xs[0]] + xs[1..] == xs;
    }
  }

  /** Decoding what was encoded yields the value back and stops right after it. */
  lemma {:induction false} ReadAfterEncode(v: Value, data: Frame, p: nat)
    requires HoldsAt(data, p, Encode(v))
    ensures ReadValue(Reader(data, p, false), KindOf(v)) == Read(v, Reader(data, p + |Encode(v)|, false))
  {
    var f := Encode(v);
    assert data[p] == f[0];
    match v
    case VInt(_) =>
    case VString(_) =>
    case VIntList(xs) =>
      assert HoldsAt(data, p + 1, IntTokens(xs)) by {
        forall k | 0 <= k < |xs|
          ensures data[p + 1..p + 1 + |xs|][k] == IntTokens(xs)[k]
        {
          assert data[p + 1 + k] == f[k + 1];
        }
      }
      ReadIntsAfterEncode(xs, data, p + 1);
  }

  // ---------------------------------------------------------------- shifting

  /** `s` reads the suffix `r.data[p..]` exactly where `r` reads the whole frame. */
  predicate Shifted(r: Reader, s: Reader, p: nat) {
    p <= |r.data| && s.data == r.data[p..] && r.pos == s.pos + p && r.error == s.error
  }

  lemma ShiftedValid(r: Reader, s: Reader, p: nat)
    requires Shifted(r, s, p)
    ensures r.Valid() <==> s.Valid()
    ensures r.Valid() ==> Next(r) == Next(s)
  {
    if r.Valid() && r.pos < |r.data| {
      assert r.data[r.pos] == s.data[s.pos];
    }
  }

  lemma {:induction false} ReadIntsShifted(r: Reader, s: Reader, p: nat, n: nat)
    requires Shifted(r, s, p) && r.Valid()
    ensures s.Valid()
    ensures ReadInts(r, n).value == ReadInts(s, n).value
    ensures Shifted(ReadInts(r, n).rest, ReadInts(s, n).rest, p)
    decreases n
  {
    ShiftedValid(r, s, p);
    if n > 0 {
      var x, y := ReadInt(r), ReadInt(s);
      assert Shifted(x.rest, y.rest, p);
      ReadIntsShifted(x.rest, y.rest, p, n - 1);
    }
  }

  /** Reading from a reader over a suffix gives what reading the whole frame
      at the matching position gives. */
  lemma {:induction false} ReadValueShifted(r: Reader, s: Reader, p: nat, k: Kind)
    requires Shifted(r, s, p) && r.Valid()
    ensures s.Valid()
    ensures ReadValue(r, k).value == ReadValue(s, k).value
    ensures Shifted(ReadValue(r, k).rest, ReadValue(s, k).rest, p)
  {
    ShiftedValid(r, s, p);
    if k == IntListKind {
      var n, m := ReadLen(r), ReadLen(s);
      assert n.value == m.value && Shifted(n.rest, m.rest, p);
      ReadIntsShifted(n.rest, m.rest, p, n.value);
    }
  }
}
