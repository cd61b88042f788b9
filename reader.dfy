/** The packet reader (minecraft/reader.go): a byte slice and an offset that
  * every `Read*` method advances past the value it decodes.
  *
  * Each read is specified by a function `XAt(data, off)` giving the decoded
  * value and the next offset, or the message the source panics with. Those
  * functions are proved to invert the encodings of `Writers`. */
module Readers {
  import opened Bytes
  import opened Wrappers
  import opened Positions
  import opened Writers

  const EndOfPacket := "Got to end of packet!"
  const SliceBounds := "slice bounds out of range"
  const InvalidBoolean := "Invalid boolean value"
  const StringTooLarge := "String is too large!"
  const VarintTooBig := "Varint is too big"
  const VarlongTooBig := "Varlong is too big"

  /** `ReadBytes`: `size` bytes at `off`. A size reaching past the end panics
    * first; a negative size makes the slice expression panic. */
  function BytesAt(data: seq<byte>, off: nat, size: int): (r: Result<(seq<byte>, nat)>)
    requires off <= |data|
    ensures r.Ok? ==> r.value.1 == off + |r.value.0| <= |data|
  {
    if off + size > |data| then Err(EndOfPacket)
    else if size < 0 then Err(SliceBounds)
    else Ok((data[off..off + size], off + size))
  }

  function ByteAt(data: seq<byte>, off: nat): Result<(byte, nat)>
    requires off <= |data|
  {
    if off + 1 > |data| then Err(EndOfPacket) else Ok((data[off], off + 1))
  }

  function BooleanAt(data: seq<byte>, off: nat): Result<(bool, nat)>
    requires off <= |data|
  {
    if off + 1 > |data| then Err(EndOfPacket)
    else if data[off] == 1 then Ok((true, off + 1))
    else if data[off] == 0 then Ok((false, off + 1))
    else Err(InvalidBoolean)
  }

  /** A `k`-byte big-endian unsigned number (`ReadUShort`, `ReadUInt`,
    * `ReadULong`, and the bit patterns of `ReadFloat` and `ReadDouble`). */
  function UnsignedAt(data: seq<byte>, off: nat, k: nat): (r: Result<(nat, nat)>)
    requires off <= |data|
    ensures r.Ok? ==> r.value.0 < Pow256(k) && r.value.1 == off + k <= |data|
  {
    if off + k > |data| then Err(EndOfPacket)
    else Ok((Unsigned(data[off..off + k]), off + k))
  }

  /** A `k`-byte big-endian two's complement number (`ReadShort`, `ReadInt`,
    * `ReadLong`). */
  function SignedAt(data: seq<byte>, off: nat, k: nat): Result<(int, nat)>
    requires off <= |data|
  {
    if off + k > |data| then Err(EndOfPacket)
    else Ok((Signed(Unsigned(data[off..off + k]), k), off + k))
  }

  /** The loop of `ReadVarint` and `ReadVarlong` after `numRead` bytes have
    * put `acc` together, for a result of `width` bytes and at most `maxRead`
    * input bytes. The source ORs each 7-bit group into the result after
    * shifting it into place; the groups occupy disjoint bits, so the OR is an
    * addition, and bits shifted past the result's width are lost. */
  function VarAt(data: seq<byte>, off: nat, numRead: nat, acc: nat, maxRead: nat, width: nat, tooBig: string): (r: Result<(int, nat)>)
    requires off <= |data|
    ensures r.Ok? ==> off < r.value.1 <= |data|
    decreases |data| - off
  {
    if off + 1 > |data| then Err(EndOfPacket)
    else
      var read := data[off];
      var next := (acc + (read % 128) * Pow2(7 * numRead)) % Pow256(width);
      if numRead + 1 > maxRead then Err(tooBig)
      else if read < 128 then Ok((Signed(next, width), off + 1))
      else VarAt(data, off + 1, numRead + 1, next, maxRead, width, tooBig)
  }

  function VarintAt(data: seq<byte>, off: nat): (r: Result<(int, nat)>)
    requires off <= |data|
    ensures r.Ok? ==> off < r.value.1 <= |data|
  {
    VarAt(data, off, 0, 0, 5, 4, VarintTooBig)
  }

  function VarlongAt(data: seq<byte>, off: nat): (r: Result<(int, nat)>)
    requires off <= |data|
    ensures r.Ok? ==> off < r.value.1 <= |data|
  {
    VarAt(data, off, 0, 0, 10, 8, VarlongTooBig)
  }

  /** `ReadString(maxLen)`: a varint length, rejected above `maxLen`, then
    * that many bytes. */
  function StringAt(data: seq<byte>, off: nat, maxLen: int): (r: Result<(seq<byte>, nat)>)
    requires off <= |data|
    ensures r.Ok? ==> off < r.value.1 <= |data|
  {
    match VarintAt(data, off)
    case Err(e) => Err(e)
    case Ok((l, next)) =>
      if l > maxLen then Err(StringTooLarge) else BytesAt(data, next, l)
  }

  /** `ReadChat` as written: the length is checked but then a fixed 32767
    * bytes are taken, whatever the length said. */
  function ChatAt(data: seq<byte>, off: nat): Result<(seq<byte>, nat)>
    requires off <= |data|
  {
    match VarintAt(data, off)
    case Err(e) => Err(e)
    case Ok((l, next)) =>
      if l > 32767 then Err(StringTooLarge) else BytesAt(data, next, 32767)
  }

  /** `ReadChat` reading the number of bytes its length prefix announces. */
  function ChatAtFixed(data: seq<byte>, off: nat): Result<(seq<byte>, nat)>
    requires off <= |data|
  {
    StringAt(data, off, 32767)
  }

  /** A position as the client decodes it: the two's complement reading of
    * the packed fields. */
  function PositionAt(data: seq<byte>, off: nat): (r: Result<(Position, nat)>)
    requires off <= |data|
    ensures r.Ok? ==> r.value.1 == off + 8 <= |data|
  {
    match UnsignedAt(data, off, 8)
    case Err(e) => Err(e)
    case Ok((v, next)) => Ok((ParsePositionFixed(v), next))
  }

  /** `s` occurs in `data` at `off`. */
  predicate At(data: seq<byte>, off: nat, s: seq<byte>)
  {
    off + |s| <= |data| && data[off..off + |s|] == s
  }

  lemma AtSplit(data: seq<byte>, off: nat, a: seq<byte>, b: seq<byte>)
    requires At(data, off, a + b)
    ensures At(data, off, a) && At(data, off + |a|, b)
  {
    assert data[off..off + |a|] == (a + b)[..|a|];
    assert data[off + |a|..off + |a| + |b|] == (a + b)[|a|..];
  }

  /** `AtSplit` with the offset of the second piece given by the caller. */
  lemma AtSplitAt(data: seq<byte>, off: nat, a: seq<byte>, b: seq<byte>, bAt: nat)
    requires At(data, off, a + b) && bAt == off + |a|
    ensures At(data, off, a) && At(data, bAt, b)
  {
    AtSplit(data, off, a, b);
  }

  /** Three pieces written one after the other, each at its own offset. */
  lemma AtSplit3(data: seq<byte>, off: nat, a: seq<byte>, b: seq<byte>, c: seq<byte>, bAt: nat, cAt: nat)
    requires At(data, off, a + b + c) && bAt == off + |a| && cAt == bAt + |b|
    ensures At(data, off, a) && At(data, bAt, b) && At(data, cAt, c)
  {
    AtSplit(data, off, a + b, c);
    AtSplit(data, off, a, b);
  }

  /** Bytes written raw read back as themselves. */
  lemma BytesRoundTrip(data: seq<byte>, off: nat, s: seq<byte>)
    requires At(data, off, s)
    ensures BytesAt(data, off, |s|) == Ok((s, off + |s|))
  {
  }

  /** A single byte reads back as itself. */
  lemma ByteRoundTrip(data: seq<byte>, off: nat, b: byte)
    requires At(data, off, [b])
    ensures ByteAt(data, off) == Ok((b, off + 1))
  {
    assert data[off] == [b][0];
  }

  /** A fixed-width signed number reads back as itself. */
  lemma SignedRoundTrip(data: seq<byte>, off: nat, v: int, k: nat)
    requires 0 < k && -(Pow256(k) / 2) <= v < Pow256(k) / 2
    requires At(data, off, BigEndian(v, k))
    ensures SignedAt(data, off, k) == Ok((v, off + k))
  {
    Bytes.SignedRoundTrip(v, k);
  }

  /** A fixed-width unsigned number reads back as itself. */
  lemma UnsignedRoundTrip(data: seq<byte>, off: nat, v: int, k: nat)
    requires 0 <= v < Pow256(k)
    requires At(data, off, BigEndian(v, k))
    ensures UnsignedAt(data, off, k) == Ok((v, off + k))
  {
    Bytes.UnsignedRoundTrip(v, k);
  }

  // The fixed widths the packets use, with their powers of 256 spelt out.

  lemma ShortRoundTrip(data: seq<byte>, off: nat, v: int16, end: nat)
    requires At(data, off, BigEndian(v, 2)) && end == off + 2
    ensures SignedAt(data, off, 2) == Ok((v as int, end))
  {
    assert Pow256(2) == 0x1_0000;
    SignedRoundTrip(data, off, v, 2);
  }

  lemma IntRoundTrip(data: seq<byte>, off: nat, v: int32, end: nat)
    requires At(data, off, BigEndian(v, 4)) && end == off + 4
    ensures SignedAt(data, off, 4) == Ok((v as int, end))
  {
    assert Pow256(4) == 0x1_0000_0000;
    SignedRoundTrip(data, off, v, 4);
  }

  lemma LongRoundTrip(data: seq<byte>, off: nat, v: int64, end: nat)
    requires At(data, off, BigEndian(v, 8)) && end == off + 8
    ensures SignedAt(data, off, 8) == Ok((v as int, end))
  {
    Pow256Of8();
    SignedRoundTrip(data, off, v, 8);
  }

  /** A `float32` read back as its bit pattern. */
  lemma FloatRoundTrip(data: seq<byte>, off: nat, bits: uint32, end: nat)
    requires At(data, off, BigEndian(bits, 4)) && end == off + 4
    ensures UnsignedAt(data, off, 4) == Ok((bits as nat, end))
  {
    assert Pow256(4) == 0x1_0000_0000;
    UnsignedRoundTrip(data, off, bits, 4);
  }

  /** A `float64` read back as its bit pattern. */
  lemma DoubleRoundTrip(data: seq<byte>, off: nat, bits: uint64, end: nat)
    requires At(data, off, BigEndian(bits, 8)) && end == off + 8
    ensures UnsignedAt(data, off, 8) == Ok((bits as nat, end))
  {
    Pow256Of8();
    UnsignedRoundTrip(data, off, bits, 8);
  }

  lemma BooleanRoundTrip(data: seq<byte>, off: nat, b: bool)
    requires At(data, off, BooleanBytes(b))
    ensures BooleanAt(data, off) == Ok((b, off + 1))
  {
    assert data[off] == BooleanBytes(b)[0];
  }

  /** The arithmetic of one step of the varint loop. */
  lemma GroupStep(acc: nat, w: nat, p: nat)
    requires acc < p
    ensures acc + (w % 128) * p <= acc + w * p
    ensures w >= 128 ==> acc + (w % 128) * p < 128 * p
    ensures acc + (w % 128) * p + (w / 128) * (128 * p) == acc + w * p
  {
    MulMono(p, w % 128, w);
    MulMono(p, w % 128, 127);
    var q := w / 128;
    assert w == 128 * q + w % 128;
    assert w * p == (128 * q) * p + (w % 128) * p;
    assert (128 * q) * p == q * (128 * p);
  }

  /** The invariant of the varint loop: reading the encoding of `w` after
    * `n` groups worth `acc` completes the value `acc + w * 2^(7n)`. */
  lemma {:induction false} VarAtEncoding(data: seq<byte>, off: nat, n: nat, acc: nat, w: nat, maxRead: nat, width: nat, tooBig: string)
    requires At(data, off, VarintBytes(w))
    requires acc < Pow2(7 * n)
    requires n + |VarintBytes(w)| <= maxRead
    requires acc + w * Pow2(7 * n) < Pow256(width)
    ensures VarAt(data, off, n, acc, maxRead, width, tooBig) == Ok((Signed(acc + w * Pow2(7 * n), width), off + |VarintBytes(w)|))
    decreases w
  {
    VarintHead(data, off, w);
    GroupNext(acc, w, n, width);
    var next := acc + (w % 128) * Pow2(7 * n);
    if w >= 128 {
      VarAtStep(data, off, n, acc, maxRead, width, tooBig, next);
      VarintTail(data, off, w);
      VarAtEncoding(data, off + 1, n + 1, next, w / 128, maxRead, width, tooBig);
    } else {
      VarAtStop(data, off, n, acc, maxRead, width, tooBig, next);
    }
  }

  /** The arithmetic of one group: adding it to `acc` stays below the
    * result's width, and the groups still to come make up the rest. */
  lemma GroupNext(acc: nat, w: nat, n: nat, width: nat)
    requires acc < Pow2(7 * n) && acc + w * Pow2(7 * n) < Pow256(width)
    ensures var next := acc + (w % 128) * Pow2(7 * n);
      next % Pow256(width) == next
      && (w >= 128 ==> next < Pow2(7 * (n + 1)) && next + (w / 128) * Pow2(7 * (n + 1)) == acc + w * Pow2(7 * n))
      && (w < 128 ==> next == acc + w * Pow2(7 * n))
  {
    var p := Pow2(7 * n);
    var next := acc + (w % 128) * p;
    GroupStep(acc, w, p);
    assert next <= acc + w * p;
    SmallMod(next, Pow256(width));
    Pow2Group(n);
    if w < 128 {
      assert w % 128 == w;
    }
  }

  /** The first byte of a varint carries its low group, and its continuation
    * bit says whether more groups follow. */
  lemma VarintHead(data: seq<byte>, off: nat, w: nat)
    requires At(data, off, VarintBytes(w))
    ensures off < |data| && data[off] % 128 == w % 128 && (data[off] >= 128 <==> w >= 128)
  {
    assert data[off] == VarintBytes(w)[0];
  }

  /** The bytes after the first are the varint of the remaining groups. */
  lemma VarintTail(data: seq<byte>, off: nat, w: nat)
    requires At(data, off, VarintBytes(w)) && w >= 128
    ensures At(data, off + 1, VarintBytes(w / 128)) && |VarintBytes(w)| == 1 + |VarintBytes(w / 128)|
  {
    assert VarintBytes(w) == [w % 128 + 128] + VarintBytes(w / 128);
    AtSplit(data, off, [w % 128 + 128], VarintBytes(w / 128));
  }

  lemma SmallMod(x: int, m: int)
    requires 0 <= x < m
    ensures x % m == x
  {
    DivModUnique(x, m, 0, x);
  }

  lemma Pow2Group(n: nat)
    ensures Pow2(7 * (n + 1)) == 128 * Pow2(7 * n)
  {
    Pow2Add(7 * n, 7);
    assert Pow2(7) == 128;
  }

  /** One iteration of the varint loop that goes on to the next byte. */
  lemma VarAtStep(data: seq<byte>, off: nat, n: nat, acc: nat, maxRead: nat, width: nat, tooBig: string, next: nat)
    requires off < |data| && n + 1 <= maxRead && data[off] >= 128
    requires next == (acc + (data[off] % 128) * Pow2(7 * n)) % Pow256(width)
    ensures VarAt(data, off, n, acc, maxRead, width, tooBig) == VarAt(data, off + 1, n + 1, next, maxRead, width, tooBig)
  {
  }

  /** The iteration of the varint loop that reads the last byte. */
  lemma VarAtStop(data: seq<byte>, off: nat, n: nat, acc: nat, maxRead: nat, width: nat, tooBig: string, next: nat)
    requires off < |data| && n + 1 <= maxRead && data[off] < 128
    requires next == (acc + (data[off] % 128) * Pow2(7 * n)) % Pow256(width)
    ensures VarAt(data, off, n, acc, maxRead, width, tooBig) == Ok((Signed(next, width), off + 1))
  {
  }

  /** Continuation bits on every byte up to the limit make the loop reject
    * the next byte. */
  lemma {:induction false} VarAtTooLong(data: seq<byte>, off: nat, n: nat, acc: nat, maxRead: nat, width: nat, tooBig: string)
    requires n <= maxRead && off + (maxRead - n) + 1 <= |data|
    requires forall i :: off <= i < off + (maxRead - n) ==> data[i] >= 128
    ensures VarAt(data, off, n, acc, maxRead, width, tooBig) == Err(tooBig)
    decreases maxRead - n
  {
    if n < maxRead {
      var next := (acc + (data[off] % 128) * Pow2(7 * n)) % Pow256(width);
      VarAtTooLong(data, off + 1, n + 1, next, maxRead, width, tooBig);
    }
  }

  /** `ReadVarint` inverts `WriteVarint`. */
  lemma VarintRoundTrip(data: seq<byte>, off: nat, v: int32)
    requires v >= 0 && At(data, off, VarintBytes(v))
    ensures VarintAt(data, off) == Ok((v as int, off + |VarintBytes(v)|))
  {
    VarintPatternRoundTrip(data, off, v);
    assert Pow256(4) == 0x1_0000_0000;
  }

  /** `VarintRoundTrip` with the offset after the varint given by the
    * caller. */
  lemma VarintReadsBack(data: seq<byte>, off: nat, v: int32, end: nat)
    requires v >= 0 && At(data, off, VarintBytes(v)) && end == off + |VarintBytes(v)|
    ensures VarintAt(data, off) == Ok((v as int, end))
  {
    VarintRoundTrip(data, off, v);
  }

  /** `ReadVarint` reads back any `int32`, a negative one included, from
    * the varint of its 32-bit pattern, which `WriteVarintFixed` writes. */
  lemma VarintFixedRoundTrip(data: seq<byte>, off: nat, v: int32)
    requires At(data, off, VarintBytes(v % 0x1_0000_0000))
    ensures VarintAt(data, off) == Ok((v as int, off + |VarintBytes(v % 0x1_0000_0000)|))
  {
    PatternSigned(v);
    VarintPatternRoundTrip(data, off, v % 0x1_0000_0000);
  }

  /** The varint of a 32-bit pattern reads back as the pattern's signed
    * value. */
  lemma VarintPatternRoundTrip(data: seq<byte>, off: nat, u: nat)
    requires u < 0x1_0000_0000 && At(data, off, VarintBytes(u))
    ensures VarintAt(data, off) == Ok((Signed(u, 4), off + |VarintBytes(u)|))
  {
    assert Pow2(35) == 0x8_0000_0000 by { Pow2Add(32, 3); Pow2Of32(); }
    VarintLength(u, 5);
    assert Pow256(4) == 0x1_0000_0000;
    VarAtEncoding(data, off, 0, 0, u, 5, 4, VarintTooBig);
  }

  /** An `int32` is the signed value of its 32-bit pattern. */
  lemma PatternSigned(v: int32)
    ensures Signed(v % 0x1_0000_0000, 4) == v
  {
    assert Pow256(4) == 0x1_0000_0000;
    if v < 0 {
      DivModUnique(v, 0x1_0000_0000, -1, v + 0x1_0000_0000);
    } else {
      DivModUnique(v, 0x1_0000_0000, 0, v);
    }
  }

  /** `ReadVarlong` inverts `WriteVarlong`. */
  lemma VarlongRoundTrip(data: seq<byte>, off: nat, v: int64)
    requires v >= 0 && At(data, off, VarintBytes(v))
    ensures VarlongAt(data, off) == Ok((v as int, off + |VarintBytes(v)|))
  {
    Pow2Of70();
    VarintLength(v, 10);
    Pow256Of8();
    VarAtEncoding(data, off, 0, 0, v, 10, 8, VarlongTooBig);
  }

  lemma Pow2Of70()
    ensures Pow2(70) == 0x40_0000_0000_0000_0000
  {
    Pow2Of64();
    Pow2Add(64, 6);
    assert Pow2(6) == 64;
  }

  lemma Pow256Of8()
    ensures Pow256(8) == 0x1_0000_0000_0000_0000
  {
  }

  /** A sixth byte with the continuation bit still set on the fifth is
    * rejected. */
  lemma VarintTooLong(data: seq<byte>, off: nat)
    requires off + 6 <= |data|
    requires forall i :: off <= i < off + 5 ==> data[i] >= 128
    ensures VarintAt(data, off) == Err(VarintTooBig)
  {
    VarAtTooLong(data, off, 0, 0, 5, 4, VarintTooBig);
  }

  /** A varint the client keeps as an `int32` (a Go `int32` field assigned
    * from `ReadVarint`). */
  function Int32At(data: seq<byte>, off: nat): (r: Result<(int32, nat)>)
    requires off <= |data|
    ensures r.Ok? ==> off < r.value.1 <= |data|
  {
    match VarintAt(data, off)
    case Err(e) => Err(e)
    case Ok((v, next)) =>
      if -0x8000_0000 <= v < 0x8000_0000 then Ok((v as int32, next)) else Err(VarintTooBig)
  }

  lemma Int32RoundTrip(data: seq<byte>, off: nat, v: int32, end: nat)
    requires v >= 0 && At(data, off, VarintBytes(v)) && end == off + |VarintBytes(v)|
    ensures Int32At(data, off) == Ok((v, end))
  {
    VarintRoundTrip(data, off, v);
  }

  /** `ReadString(maxLen)` inverts `WriteString` exactly when the string fits
    * the limit. */
  lemma StringRoundTrip(data: seq<byte>, off: nat, s: seq<byte>, maxLen: int)
    requires |s| < 0x8000_0000 && At(data, off, StringBytes(s))
    ensures |s| <= maxLen ==> StringAt(data, off, maxLen) == Ok((s, off + |StringBytes(s)|))
    ensures |s| > maxLen ==> StringAt(data, off, maxLen) == Err(StringTooLarge)
  {
    AtSplit(data, off, VarintBytes(|s|), s);
    VarintRoundTrip(data, off, |s|);
  }

  /** As written, a chat shorter than 32767 bytes at the end of a packet
    * makes `ReadChat` panic. */
  lemma ChatAtRejectsShortChat()
    ensures ChatAt(StringBytes([0x7b, 0x7d]), 0) == Err(EndOfPacket)
  {
    var d := StringBytes([0x7b, 0x7d]);
    assert d == [2, 0x7b, 0x7d];
    VarintRoundTrip(d, 0, 2);
  }

  /** The corrected `ReadChat` inverts `WriteChat`. */
  lemma ChatRoundTrip(data: seq<byte>, off: nat, json: seq<byte>)
    requires |json| <= 32767 && At(data, off, StringBytes(json))
    ensures ChatAtFixed(data, off) == Ok((json, off + |StringBytes(json)|))
  {
    StringRoundTrip(data, off, json, 32767);
  }

  /** `StringRoundTrip` for a string within the limit, with the offset
    * after it given by the caller. */
  lemma StringReadsBack(data: seq<byte>, off: nat, s: seq<byte>, maxLen: int, end: nat)
    requires |s| <= maxLen && |s| < 0x8000_0000 && At(data, off, StringBytes(s)) && end == off + |StringBytes(s)|
    ensures StringAt(data, off, maxLen) == Ok((s, end))
  {
    StringRoundTrip(data, off, s, maxLen);
  }

  /** `ChatRoundTrip` with the offset after the chat given by the caller. */
  lemma ChatReadsBack(data: seq<byte>, off: nat, json: seq<byte>, end: nat)
    requires |json| <= 32767 && At(data, off, StringBytes(json)) && end == off + |StringBytes(json)|
    ensures ChatAtFixed(data, off) == Ok((json, end))
  {
    StringRoundTrip(data, off, json, 32767);
  }

  /** A position reads back as itself over the whole packed range. */
  lemma PositionRoundTrip(data: seq<byte>, off: nat, p: Position)
    requires InPackedRange(p) && At(data, off, PositionBytes(p))
    ensures PositionAt(data, off) == Ok((p, off + 8))
  {
    Bytes.UnsignedRoundTrip(Pack(p), 8);
    ParseFixedOfPack(p);
  }

  /** How a `Read*` method's result and new offset follow its specification:
    * on success the value and the next offset; on a panic its message, with
    * the offset somewhere at or after where it started. */
  ghost predicate Follows<T>(spec: Result<(T, nat)>, r: Result<T>, before: nat, after: int)
  {
    match spec
    case Ok((v, next)) => r == Ok(v) && after == next
    case Err(e) => r == Err(e) && before <= after
  }

  class Reader {
    const data: seq<byte>
    var offset: int

    ghost predicate Valid()
      reads this
    {
      0 <= offset <= |data|
    }

    constructor (data: seq<byte>)
      ensures this.data == data && offset == 0 && Valid()
    {
      this.data := data;
      offset := 0;
    }

    /** `Read`: copies as many of the remaining bytes as fit in a buffer of
      * `n` bytes; it never fails. */
    method Read(n: nat) returns (count: nat, copied: seq<byte>)
      requires Valid()
      modifies this
      ensures Valid()
      ensures count == if n < |data| - old(offset) then n else |data| - old(offset)
      ensures copied == data[old(offset)..old(offset) + count]
      ensures offset == old(offset) + count
    {
      count := if n < |data| - offset then n else |data| - offset;
      copied := data[offset..offset + count];
      offset := offset + count;
    }

    method ReadBytes(size: int) returns (r: Result<seq<byte>>)
      requires Valid()
      modifies this
      ensures Valid()
      ensures Follows(BytesAt(data, old(offset), size), r, old(offset), offset)
    {
      if offset + size > |data| {
        return Err(EndOfPacket);
      }
      if size < 0 {
        return Err(SliceBounds);
      }
      r := Ok(data[offset..offset + size]);
      offset := offset + size;
    }

    method ReadBoolean() returns (r: Result<bool>)
      requires Valid()
      modifies this
      ensures Valid()
      ensures Follows(BooleanAt(data, old(offset)), r, old(offset), offset)
    {
      var b := ReadByte();
      if b.Err? {
        return Err(b.error);
      }
      if b.value == 0x01 {
        r := Ok(true);
      } else if b.value == 0x00 {
        r := Ok(false);
      } else {
        r := Err(InvalidBoolean);
      }
    }

    method ReadByte() returns (r: Result<byte>)
      requires Valid()
      modifies this
      ensures Valid()
      ensures Follows(ByteAt(data, old(offset)), r, old(offset), offset)
    {
      var b := ReadBytes(1);
      if b.Err? {
        return Err(b.error);
      }
      r := Ok(b.value[0]);
    }

    /** The fixed-width reads share this shape: `k` bytes, then the
      * big-endian number, read as two's complement when `signed`. */
    method ReadFixed(k: nat, signed: bool) returns (r: Result<int>)
      requires Valid()
      modifies this
      ensures Valid()
      ensures signed ==> Follows(SignedAt(data, old(offset), k), r, old(offset), offset)
      ensures !signed ==> Follows(UnsignedAt(data, old(offset), k), r, old(offset), offset)
    {
      var b := ReadBytes(k);
      if b.Err? {
        return Err(b.error);
      }
      var u := Unsigned(b.value);
      r := Ok(if signed then Signed(u, k) else u);
    }

    method ReadShort() returns (r: Result<int>)
      requires Valid()
      modifies this
      ensures Valid()
      ensures Follows(SignedAt(data, old(offset), 2), r, old(offset), offset)
    {
      r := ReadFixed(2, true);
    }

    method ReadUShort() returns (r: Result<int>)
      requires Valid()
      modifies this
      ensures Valid()
      ensures Follows(UnsignedAt(data, old(offset), 2), r, old(offset), offset)
    {
      r := ReadFixed(2, false);
    }

    method ReadInt() returns (r: Result<int>)
      requires Valid()
      modifies this
      ensures Valid()
      ensures Follows(SignedAt(data, old(offset), 4), r, old(offset), offset)
    {
      r := ReadFixed(4, true);
    }

    method ReadUInt() returns (r: Result<int>)
      requires Valid()
      modifies this
      ensures Valid()
      ensures Follows(UnsignedAt(data, old(offset), 4), r, old(offset), offset)
    {
      r := ReadFixed(4, false);
    }

    method ReadLong() returns (r: Result<int>)
      requires Valid()
      modifies this
      ensures Valid()
      ensures Follows(SignedAt(data, old(offset), 8), r, old(offset), offset)
    {
      r := ReadFixed(8, true);
    }

    method ReadULong() returns (r: Result<int>)
      requires Valid()
      modifies this
      ensures Valid()
      ensures Follows(UnsignedAt(data, old(offset), 8), r, old(offset), offset)
    {
      r := ReadFixed(8, false);
    }

    /** `ReadFloat`: the IEEE 754 bit pattern of the `float32`. */
    method ReadFloat() returns (r: Result<int>)
      requires Valid()
      modifies this
      ensures Valid()
      ensures Follows(UnsignedAt(data, old(offset), 4), r, old(offset), offset)
    {
      r := ReadFixed(4, false);
    }

    /** `ReadDouble`: the IEEE 754 bit pattern of the `float64`. */
    method ReadDouble() returns (r: Result<int>)
      requires Valid()
      modifies this
      ensures Valid()
      ensures Follows(UnsignedAt(data, old(offset), 8), r, old(offset), offset)
    {
      r := ReadFixed(8, false);
    }

    /** The loop shared by `ReadVarint` and `ReadVarlong`. */
    method ReadVar(maxRead: nat, width: nat, tooBig: string) returns (r: Result<int>)
      requires Valid()
      modifies this
      ensures Valid()
      ensures Follows(VarAt(data, old(offset), 0, 0, maxRead, width, tooBig), r, old(offset), offset)
    {
      var numRead: nat := 0;
      var result: nat := 0;
      while true
        invariant Valid() && old(offset) <= offset
        invariant VarAt(data, offset, numRead, result, maxRead, width, tooBig)
               == VarAt(data, old(offset), 0, 0, maxRead, width, tooBig)
        decreases |data| - offset
      {
        var b := ReadByte();
        if b.Err? {
          return Err(b.error);
        }
        var read := b.value;
        var value := read % 128;
        result := (result + value * Pow2(7 * numRead)) % Pow256(width);
        numRead := numRead + 1;
        if numRead > maxRead {
          return Err(tooBig);
        }
        if read < 128 {
          return Ok(Signed(result, width));
        }
      }
    }

    method ReadVarint() returns (r: Result<int>)
      requires Valid()
      modifies this
      ensures Valid()
      ensures Follows(VarintAt(data, old(offset)), r, old(offset), offset)
    {
      r := ReadVar(5, 4, VarintTooBig);
    }

    method ReadVarlong() returns (r: Result<int>)
      requires Valid()
      modifies this
      ensures Valid()
      ensures Follows(VarlongAt(data, old(offset)), r, old(offset), offset)
    {
      r := ReadVar(10, 8, VarlongTooBig);
    }

    method ReadString(maxLen: int) returns (r: Result<seq<byte>>)
      requires Valid()
      modifies this
      ensures Valid()
      ensures Follows(StringAt(data, old(offset), maxLen), r, old(offset), offset)
    {
      var l := ReadVarint();
      if l.Err? {
        return Err(l.error);
      }
      if l.value > maxLen {
        return Err(StringTooLarge);
      }
      r := ReadBytes(l.value);
    }

    /** `ReadChat` as written; the chat's JSON is returned as its bytes. */
    method ReadChat() returns (r: Result<seq<byte>>)
      requires Valid()
      modifies this
      ensures Valid()
      ensures Follows(ChatAt(data, old(offset)), r, old(offset), offset)
    {
      var l := ReadVarint();
      if l.Err? {
        return Err(l.error);
      }
      if l.value > 32767 {
        return Err(StringTooLarge);
      }
      r := ReadBytes(32767);
    }

    method ReadIdentifier() returns (r: Result<seq<byte>>)
      requires Valid()
      modifies this
      ensures Valid()
      ensures Follows(StringAt(data, old(offset), 32767), r, old(offset), offset)
    {
      r := ReadString(32767);
    }

    /** `ReadPosition` as written, with the source's `ParsePosition`. */
    method ReadPosition() returns (r: Result<Position>)
      requires Valid()
      modifies this
      ensures Valid()
      ensures match UnsignedAt(data, old(offset), 8)
              case Ok((v, next)) => r == Ok(ParsePosition(v)) && offset == next
              case Err(e) => r == Err(e) && old(offset) <= offset
    {
      var v := ReadULong();
      if v.Err? {
        return Err(v.error);
      }
      r := Ok(ParsePosition(v.value));
    }

    method ReadAngle() returns (r: Result<byte>)
      requires Valid()
      modifies this
      ensures Valid()
      ensures Follows(ByteAt(data, old(offset)), r, old(offset), offset)
    {
      r := ReadByte();
    }

    /** `ReadUUID`: the 16 raw bytes of the UUID. */
    method ReadUUID() returns (r: Result<seq<byte>>)
      requires Valid()
      modifies this
      ensures Valid()
      ensures Follows(BytesAt(data, old(offset), 16), r, old(offset), offset)
    {
      r := ReadBytes(16);
    }

    /** `ReadUUIDFromString`: the UUID's text, at most 36 bytes; parsing it
      * into a UUID is not part of this model. */
    method ReadUUIDFromString() returns (r: Result<seq<byte>>)
      requires Valid()
      modifies this
      ensures Valid()
      ensures Follows(StringAt(data, old(offset), 36), r, old(offset), offset)
    {
      r := ReadString(36);
    }
  }
}
