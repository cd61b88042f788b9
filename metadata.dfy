/** Entity metadata (`EntityMetadataWriter` in minecraft/writer.go): a list
  * of entries, each an index byte, a type id written as a varint and the
  * value, closed by the index 0xFF.
  *
  * The client's reading of that list is given here as a reference decoder
  * built from the `Readers` functions, and every list of encodable entries
  * is proved to read back as itself. */
module Metadata {
  import opened Bytes
  import opened Wrappers
  import opened Positions
  import opened Writers
  import Readers
  import NbtWriters

  /** The values the writer has a method for. Floats are their IEEE 754 bit
    * patterns. `MPose` is the entry `WritePose` writes (see README). */
  datatype Value =
    | MByte(b: byte)
    | MVarint(v: int)
    | MFloat(bits: uint32)
    | MString(s: seq<byte>)
    | MBoolean(z: bool)
    | MPosition(p: Position)
    | MPose(pose: int)

  /** The metadata type ids: 0 byte, 1 varint, 2 float, 3 string,
    * 6 boolean, 8 position, 18 pose; 13 (NBT) is written by `StartNBT`. */
  function TypeId(v: Value): (r: nat)
    ensures r < 128
  {
    match v
    case MByte(_) => 0
    case MVarint(_) => 1
    case MFloat(_) => 2
    case MString(_) => 3
    case MBoolean(_) => 6
    case MPosition(_) => 8
    case MPose(_) => 18
  }

  const NbtTypeId: nat := 13
  const EndIndex: byte := 0xFF

  /** The values the writer can write at all: varints terminate only when
    * non-negative, and a string's length must fit its varint. */
  predicate Writable(v: Value)
  {
    match v
    case MVarint(x) => 0 <= x < 0x8000_0000
    case MString(s) => |s| < 0x8000_0000
    case MPose(x) => 0 <= x < 0x8000_0000
    case _ => true
  }

  /** The values that also read back: strings within the client's limit
    * of 32767 bytes and positions within the packed range. */
  predicate Encodable(v: Value)
  {
    Writable(v)
    && (v.MString? ==> |v.s| <= 32767)
    && (v.MPosition? ==> InPackedRange(v.p))
  }

  function ValueBytes(v: Value): seq<byte>
    requires Writable(v)
  {
    match v
    case MByte(b) => [b]
    case MVarint(x) => VarintBytes(x)
    case MFloat(bits) => BigEndian(bits, 4)
    case MString(s) => StringBytes(s)
    case MBoolean(z) => BooleanBytes(z)
    case MPosition(p) => PositionBytes(p)
    case MPose(x) => VarintBytes(x)
  }

  function EntryBytes(index: byte, v: Value): seq<byte>
    requires Writable(v)
  {
    [index] + VarintBytes(TypeId(v)) + ValueBytes(v)
  }

  predicate AllWritable(es: seq<(byte, Value)>)
  {
    forall i :: 0 <= i < |es| ==> Writable(es[i].1)
  }

  /** The entries one after the other, without the terminator. */
  function EntriesBytes(es: seq<(byte, Value)>): seq<byte>
    requires AllWritable(es)
  {
    if es == [] then [] else EntryBytes(es[0].0, es[0].1) + EntriesBytes(es[1..])
  }

  lemma EntriesBytesPair(a: (byte, Value), b: (byte, Value))
    requires Writable(a.1) && Writable(b.1)
    ensures AllWritable([a, b])
    ensures EntriesBytes([a, b]) == EntryBytes(a.0, a.1) + EntryBytes(b.0, b.1)
  {
    assert [a, b][1..] == [b];
    assert [b][1..] == [];
    assert EntriesBytes([b]) == EntryBytes(b.0, b.1) + [];
    assert EntryBytes(b.0, b.1) + [] == EntryBytes(b.0, b.1);
  }

  lemma EntriesBytesOne(a: (byte, Value))
    requires Writable(a.1)
    ensures AllWritable([a])
    ensures EntriesBytes([a]) == EntryBytes(a.0, a.1)
  {
    assert [a][1..] == [];
    assert EntryBytes(a.0, a.1) + [] == EntryBytes(a.0, a.1);
  }

  lemma {:induction false} EntriesBytesAppend(a: seq<(byte, Value)>, b: seq<(byte, Value)>)
    requires AllWritable(a) && AllWritable(b)
    ensures AllWritable(a + b)
    ensures EntriesBytes(a + b) == EntriesBytes(a) + EntriesBytes(b)
    decreases a
  {
    assert AllWritable(a + b) by {
      forall i | 0 <= i < |a + b|
        ensures Writable((a + b)[i].1)
      {
        if i >= |a| {
          assert (a + b)[i] == b[i - |a|];
        }
      }
    }
    if a != [] {
      assert (a + b)[1..] == a[1..] + b;
      EntriesBytesAppend(a[1..], b);
    } else {
      assert a + b == b;
    }
  }

  /** A whole metadata list: the entries, then the 0xFF index. */
  function MetadataBytes(es: seq<(byte, Value)>): seq<byte>
    requires AllWritable(es)
  {
    EntriesBytes(es) + [EndIndex]
  }

  // ---------------------------------------------------------------------
  // The client's reading of a metadata list
  // ---------------------------------------------------------------------

  const UnknownType := "unknown metadata type"

  function ValueAt(data: seq<byte>, off: nat, id: int): (r: Result<(Value, nat)>)
    requires off <= |data|
    ensures r.Ok? ==> r.value.1 <= |data|
  {
    if id == 0 then
      match Readers.ByteAt(data, off)
      case Err(e) => Err(e)
      case Ok((b, next)) => Ok((MByte(b), next))
    else if id == 1 || id == 18 then
      match Readers.VarintAt(data, off)
      case Err(e) => Err(e)
      case Ok((x, next)) => Ok((if id == 1 then MVarint(x) else MPose(x), next))
    else if id == 2 then
      match Readers.UnsignedAt(data, off, 4)
      case Err(e) => Err(e)
      case Ok((x, next)) =>
        assert Pow256(4) == 0x1_0000_0000;
        Ok((MFloat(x), next))
    else if id == 3 then
      match Readers.StringAt(data, off, 32767)
      case Err(e) => Err(e)
      case Ok((s, next)) => Ok((MString(s), next))
    else if id == 6 then
      match Readers.BooleanAt(data, off)
      case Err(e) => Err(e)
      case Ok((z, next)) => Ok((MBoolean(z), next))
    else if id == 8 then
      match Readers.PositionAt(data, off)
      case Err(e) => Err(e)
      case Ok((p, next)) => Ok((MPosition(p), next))
    else
      Err(UnknownType)
  }

  /** One entry, or `None` at the terminating index. */
  function EntryAt(data: seq<byte>, off: nat): (r: Result<(Option<(byte, Value)>, nat)>)
    requires off <= |data|
    ensures r.Ok? ==> off < r.value.1 <= |data|
  {
    match Readers.ByteAt(data, off)
    case Err(e) => Err(e)
    case Ok((index, next)) =>
      if index == EndIndex then Ok((None, next))
      else
        match Readers.VarintAt(data, next)
        case Err(e) => Err(e)
        case Ok((id, start)) =>
          match ValueAt(data, start, id)
          case Err(e) => Err(e)
          case Ok((v, end)) => Ok((Some((index, v)), end))
  }

  function MetadataAt(data: seq<byte>, off: nat): (r: Result<(seq<(byte, Value)>, nat)>)
    requires off <= |data|
    decreases |data| - off
  {
    match EntryAt(data, off)
    case Err(e) => Err(e)
    case Ok((None, next)) => Ok(([], next))
    case Ok((Some(e), next)) =>
      match MetadataAt(data, next)
      case Err(err) => Err(err)
      case Ok((rest, end)) => Ok(([e] + rest, end))
  }

  /** A value reads back as itself under its own type id. */
  lemma ValueRoundTrip(data: seq<byte>, off: nat, v: Value, end: nat)
    requires Encodable(v) && Readers.At(data, off, ValueBytes(v)) && end == off + |ValueBytes(v)|
    ensures ValueAt(data, off, TypeId(v)) == Ok((v, end))
  {
    if v.MByte? || v.MVarint? || v.MFloat? || v.MPose? {
      NumberRoundTrip(data, off, v, end);
    } else {
      OtherRoundTrip(data, off, v, end);
    }
  }

  /** The byte, varint, float and pose values. */
  lemma NumberRoundTrip(data: seq<byte>, off: nat, v: Value, end: nat)
    requires v.MByte? || v.MVarint? || v.MFloat? || v.MPose?
    requires Encodable(v) && Readers.At(data, off, ValueBytes(v)) && end == off + |ValueBytes(v)|
    ensures ValueAt(data, off, TypeId(v)) == Ok((v, end))
  {
    match v
    case MByte(b) =>
    case MVarint(x) => Readers.VarintRoundTrip(data, off, x);
    case MFloat(bits) => Readers.UnsignedRoundTrip(data, off, bits, 4);
    case MPose(x) => Readers.VarintRoundTrip(data, off, x);
  }

  /** The string, boolean and position values. */
  lemma OtherRoundTrip(data: seq<byte>, off: nat, v: Value, end: nat)
    requires v.MString? || v.MBoolean? || v.MPosition?
    requires Encodable(v) && Readers.At(data, off, ValueBytes(v)) && end == off + |ValueBytes(v)|
    ensures ValueAt(data, off, TypeId(v)) == Ok((v, end))
  {
    match v
    case MString(s) => Readers.StringRoundTrip(data, off, s, 32767);
    case MBoolean(z) => Readers.BooleanRoundTrip(data, off, z);
    case MPosition(p) => Readers.PositionRoundTrip(data, off, p);
  }

  /** An entry with an index other than 0xFF reads back as itself. */
  lemma EntryRoundTrip(data: seq<byte>, off: nat, index: byte, v: Value, end: nat)
    requires index != EndIndex && Encodable(v)
    requires Readers.At(data, off, EntryBytes(index, v)) && end == off + |EntryBytes(index, v)|
    ensures EntryAt(data, off) == Ok((Some((index, v)), end))
  {
    var id := VarintBytes(TypeId(v));
    Readers.AtSplit(data, off, [index] + id, ValueBytes(v));
    Readers.AtSplit(data, off, [index], id);
    Readers.VarintRoundTrip(data, off + 1, TypeId(v));
    ValueRoundTrip(data, off + 1 + |id|, v, end);
  }

  predicate AllEncodable(es: seq<(byte, Value)>)
  {
    forall i :: 0 <= i < |es| ==> es[i].0 != EndIndex && Encodable(es[i].1)
  }

  /** A metadata list reads back as the entries written, and the reader
    * stops right after the terminator. */
  lemma {:induction false} MetadataRoundTrip(data: seq<byte>, off: nat, es: seq<(byte, Value)>, end: nat)
    requires AllEncodable(es) && Readers.At(data, off, MetadataBytes(es))
    requires end == off + |MetadataBytes(es)|
    ensures MetadataAt(data, off) == Ok((es, end))
    decreases es
  {
    if es == [] {
      assert data[off] == EndIndex;
    } else {
      var next := off + |EntryBytes(es[0].0, es[0].1)|;
      MetadataHead(data, off, es, next, end);
      MetadataRoundTrip(data, next, es[1..], end);
      MetadataAtCons(data, off, es[0], next, es[1..], end);
      assert [es[0]] + es[1..] == es;
    }
  }

  /** The first entry of a non-empty list reads back, and the rest of the
    * list is written right after it. */
  lemma MetadataHead(data: seq<byte>, off: nat, es: seq<(byte, Value)>, next: nat, end: nat)
    requires es != [] && AllEncodable(es) && Readers.At(data, off, MetadataBytes(es))
    requires end == off + |MetadataBytes(es)| && next == off + |EntryBytes(es[0].0, es[0].1)|
    ensures AllEncodable(es[1..]) && Readers.At(data, next, MetadataBytes(es[1..]))
    ensures end == next + |MetadataBytes(es[1..])| && next <= |data|
    ensures EntryAt(data, off) == Ok((Some(es[0]), next))
  {
    var e := EntryBytes(es[0].0, es[0].1);
    MetadataBytesCons(es);
    assert forall i :: 0 <= i < |es[1..]| ==> es[1..][i] == es[i + 1];
    Readers.AtSplit(data, off, e, MetadataBytes(es[1..]));
    EntryRoundTrip(data, off, es[0].0, es[0].1, next);
  }

  /** A non-empty list is its first entry followed by the rest. */
  lemma MetadataBytesCons(es: seq<(byte, Value)>)
    requires es != [] && AllWritable(es)
    ensures AllWritable(es[1..])
    ensures MetadataBytes(es) == EntryBytes(es[0].0, es[0].1) + MetadataBytes(es[1..])
  {
    assert forall i :: 0 <= i < |es[1..]| ==> es[1..][i] == es[i + 1];
  }

  /** An entry read at `off`, then a list read after it, is a list read
    * at `off`. */
  lemma MetadataAtCons(data: seq<byte>, off: nat, e: (byte, Value), next: nat, rest: seq<(byte, Value)>, end: nat)
    requires off <= next <= |data|
    requires EntryAt(data, off) == Ok((Some(e), next)) && MetadataAt(data, next) == Ok((rest, end))
    ensures MetadataAt(data, off) == Ok(([e] + rest, end))
  {
  }

  /** `EntityMetadataWriter`: appends entries to a packet writer. */
  class EntityMetadataWriter {
    const w: Writer

    /** `Writer.StartEntityMetadata`. */
    constructor (w: Writer)
      ensures this.w == w
    {
      this.w := w;
    }

    /** The index and the metadata type that open an entry. */
    method WriteHeader(index: byte, typeId: int32)
      requires typeId >= 0
      modifies w
      ensures w.data == old(w.data) + ([index] + VarintBytes(typeId))
    {
      ghost var d0 := w.data;
      w.WriteByte(index);
      w.WriteVarint(typeId);
      Append3(d0, [index], VarintBytes(typeId));
    }

    method WriteByte(index: byte, val: byte)
      modifies w
      ensures w.data == old(w.data) + EntryBytes(index, MByte(val))
    {
      ghost var d0 := w.data;
      WriteHeader(index, 0);
      w.WriteByte(val);
      Append3(d0, [index] + VarintBytes(0), ValueBytes(MByte(val)));
    }

    method WriteVarint(index: byte, val: int32)
      requires val >= 0
      modifies w
      ensures w.data == old(w.data) + EntryBytes(index, MVarint(val))
    {
      ghost var d0 := w.data;
      WriteHeader(index, 1);
      w.WriteVarint(val);
      Append3(d0, [index] + VarintBytes(1), ValueBytes(MVarint(val)));
    }

    /** The `float32` is given as its IEEE 754 bit pattern. */
    method WriteFloat(index: byte, bits: uint32)
      modifies w
      ensures w.data == old(w.data) + EntryBytes(index, MFloat(bits))
    {
      ghost var d0 := w.data;
      WriteHeader(index, 2);
      w.WriteFloat(bits);
      Append3(d0, [index] + VarintBytes(2), ValueBytes(MFloat(bits)));
    }

    method WriteString(index: byte, val: seq<byte>)
      requires |val| < 0x8000_0000
      modifies w
      ensures w.data == old(w.data) + EntryBytes(index, MString(val))
    {
      ghost var d0 := w.data;
      WriteHeader(index, 3);
      w.WriteString(val);
      Append3(d0, [index] + VarintBytes(3), ValueBytes(MString(val)));
    }

    method WriteBoolean(index: byte, val: bool)
      modifies w
      ensures w.data == old(w.data) + EntryBytes(index, MBoolean(val))
    {
      ghost var d0 := w.data;
      WriteHeader(index, 6);
      w.WriteBoolean(val);
      Append3(d0, [index] + VarintBytes(6), ValueBytes(MBoolean(val)));
    }

    method WritePosition(index: byte, val: Position)
      modifies w
      ensures w.data == old(w.data) + EntryBytes(index, MPosition(val))
    {
      ghost var d0 := w.data;
      WriteHeader(index, 8);
      w.WritePosition(val);
      Append3(d0, [index] + VarintBytes(8), ValueBytes(MPosition(val)));
    }

    /** The pose entry, a varint of metadata type 18. */
    method WritePose(index: byte, pose: int32)
      requires pose >= 0
      modifies w
      ensures w.data == old(w.data) + EntryBytes(index, MPose(pose))
    {
      ghost var d0 := w.data;
      WriteHeader(index, 18);
      w.WriteVarint(pose);
      Append3(d0, [index] + VarintBytes(18), ValueBytes(MPose(pose)));
    }

    /** `StartNBT`: the index and type 13, then a fresh NBT writer over the
      * same buffer, with nothing open. */
    method StartNBT(index: byte) returns (nw: NbtWriters.NbtWriter)
      modifies w
      ensures w.data == old(w.data) + [index] + VarintBytes(NbtTypeId)
      ensures fresh(nw) && nw.w == w && nw.Valid()
      ensures nw.hierarchy == [] && nw.base == w.data && nw.closed == [] && nw.frames == []
    {
      w.WriteByte(index);
      w.WriteVarint(13);
      nw := new NbtWriters.NbtWriter(w);
    }

    /** `Done`: the terminating index 0xFF. */
    method Done()
      modifies w
      ensures w.data == old(w.data) + [EndIndex]
    {
      w.WriteByte(0xFF);
    }
  }
}
