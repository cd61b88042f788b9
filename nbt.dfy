/** Named Binary Tag (NBT) framing (minecraft/nbt.go), over an abstract tag
  * tree: what the reflection-based encoder writes for a tree, the decoder
  * that reads a tree back into generic values (`interface{}`), the skipping
  * reader `rawRead`, and `Decode`'s header and compression checks.
  *
  * The decoder is specified by functions `XAt(data, off)` that give the
  * decoded value and the next offset, or the error the source returns. */
module Nbt {
  import opened Bytes
  import opened Wrappers
  import Readers

  const TagEnd: byte := 0
  const TagByte: byte := 1
  const TagShort: byte := 2
  const TagInt: byte := 3
  const TagLong: byte := 4
  const TagFloat: byte := 5
  const TagDouble: byte := 6
  const TagByteArray: byte := 7
  const TagString: byte := 8
  const TagList: byte := 9
  const TagCompound: byte := 10
  const TagIntArray: byte := 11
  const TagLongArray: byte := 12

  /** A tag's payload. Floating-point payloads are their IEEE 754 bit
    * patterns. A list records its element type, which an empty list keeps. */
  datatype Tag =
    | TByte(b: byte)
    | TShort(s: int)
    | TInt(i: int)
    | TLong(l: int)
    | TFloat(fbits: int)
    | TDouble(dbits: int)
    | TByteArray(bytes: seq<byte>)
    | TString(str: seq<byte>)
    | TList(elemType: byte, items: seq<Tag>)
    | TCompound(entries: seq<Entry>)
    | TIntArray(ints: seq<int>)
    | TLongArray(longs: seq<int>)

  /** A named member of a compound, in stream order. */
  datatype Entry = Entry(name: seq<byte>, value: Tag)

  function TypeOf(t: Tag): (r: byte)
    ensures r != TagEnd && r <= TagLongArray
  {
    match t
    case TByte(_) => TagByte
    case TShort(_) => TagShort
    case TInt(_) => TagInt
    case TLong(_) => TagLong
    case TFloat(_) => TagFloat
    case TDouble(_) => TagDouble
    case TByteArray(_) => TagByteArray
    case TString(_) => TagString
    case TList(_, _) => TagList
    case TCompound(_) => TagCompound
    case TIntArray(_) => TagIntArray
    case TLongArray(_) => TagLongArray
  }

  predicate InSigned(v: int, k: nat)
  {
    -(Pow256(k) / 2) <= v < Pow256(k) / 2
  }

  /** The trees that have an encoding: every number fits its width, every
    * length fits its length field, and a list's items all have its element
    * type. */
  predicate WellFormed(t: Tag)
    decreases t, 1
  {
    match t
    case TByte(_) => true
    case TShort(v) => InSigned(v, 2)
    case TInt(v) => InSigned(v, 4)
    case TLong(v) => InSigned(v, 8)
    case TFloat(v) => 0 <= v < Pow256(4)
    case TDouble(v) => 0 <= v < Pow256(8)
    case TByteArray(d) => |d| < 0x8000_0000
    case TString(s) => |s| < 0x8000
    case TList(et, items) => |items| < 0x8000_0000 && ItemsWellFormed(items, et)
    case TCompound(es) => EntriesWellFormed(es)
    case TIntArray(xs) => |xs| < 0x8000_0000 && forall i :: 0 <= i < |xs| ==> InSigned(xs[i], 4)
    case TLongArray(xs) => |xs| < 0x8000_0000 && forall i :: 0 <= i < |xs| ==> InSigned(xs[i], 8)
  }

  /** Every item has the list's element type and is well formed. */
  predicate ItemsWellFormed(items: seq<Tag>, et: byte)
    decreases items, 0
  {
    items == [] || (TypeOf(items[0]) == et && WellFormed(items[0]) && ItemsWellFormed(items[1..], et))
  }

  /** Every member's name fits its 16-bit length and its value is well
    * formed. */
  predicate EntriesWellFormed(es: seq<Entry>)
    decreases es, 0
  {
    es == [] || (|es[0].name| < 0x8000 && WellFormed(es[0].value) && EntriesWellFormed(es[1..]))
  }

  // ---------------------------------------------------------------------
  // Type mapping (getTagType, isArrayTag)
  // ---------------------------------------------------------------------

  /** The Go kinds `getTagType` distinguishes. */
  datatype Kind =
    | Uint8 | Int16 | Uint16 | Int32 | Uint32 | Float32 | Int64 | Uint64 | Float64
    | StringKind | Struct | Interface | Map
    | Slice(elem: Kind) | Array(elem: Kind)
    | OtherKind

  predicate IsArrayTag(t: byte)
  {
    t == TagByteArray || t == TagIntArray || t == TagLongArray
  }

  /** `getTagType`: the tag type a Go type is encoded as; any other kind
    * panics. Slices and arrays of bytes, `int32` and `int64` are array tags,
    * of anything else lists. */
  function GetTagType(k: Kind): (r: Result<byte>)
    ensures r.Ok? <==> k != OtherKind
    ensures r.Ok? ==> TagByte <= r.value <= TagLongArray
    ensures r.Ok? ==> (IsArrayTag(r.value) <==> (k.Slice? || k.Array?) && k.elem in {Uint8, Int32, Int64})
    ensures r.Ok? && (k.Slice? || k.Array?) ==> r.value == TagList || IsArrayTag(r.value)
  {
    match k
    case Uint8 => Ok(TagByte)
    case Int16 => Ok(TagShort)
    case Uint16 => Ok(TagShort)
    case Int32 => Ok(TagInt)
    case Uint32 => Ok(TagInt)
    case Float32 => Ok(TagFloat)
    case Int64 => Ok(TagLong)
    case Uint64 => Ok(TagLong)
    case Float64 => Ok(TagDouble)
    case StringKind => Ok(TagString)
    case Struct => Ok(TagCompound)
    case Interface => Ok(TagCompound)
    case Slice(e) => Ok(SequenceTag(e))
    case Array(e) => Ok(SequenceTag(e))
    case Map => Ok(TagCompound)
    case OtherKind => Err("Invalid type")
  }

  function SequenceTag(e: Kind): byte
  {
    match e
    case Uint8 => TagByteArray
    case Int32 => TagIntArray
    case Int64 => TagLongArray
    case _ => TagList
  }

  // ---------------------------------------------------------------------
  // Encoding
  // ---------------------------------------------------------------------

  /** A name or string: its length as a 16-bit big-endian number (`int16`
    * of the length, so only the low 16 bits), then its bytes. */
  function NameBytes(s: seq<byte>): (r: seq<byte>)
    ensures |r| == 2 + |s|
  {
    BigEndian(|s|, 2) + s
  }

  /** `writeTag`: the type byte, then the name. */
  function TagHeader(t: byte, name: seq<byte>): (r: seq<byte>)
    ensures |r| == 3 + |name|
  {
    [t] + NameBytes(name)
  }

  /** An unnamed compound with no entries, 0A 00 00 00: what the chunk
    * packet sends for its height maps and what marshalling an empty struct
    * writes. */
  function EmptyCompound(): (r: seq<byte>)
    ensures r == [10, 0, 0, 0]
    ensures r == Marshal([], TCompound([])) == NamedBytes([], TCompound([]))
  {
    TagHeader(TagCompound, []) + [TagEnd]
  }

  /** `writeListHeader`: a list's tag header, element type and length. */
  function ListHeader(et: byte, name: seq<byte>, n: int): seq<byte>
  {
    TagHeader(TagList, name) + [et] + BigEndian(n, 4)
  }

  function NumbersBytes(xs: seq<int>, k: nat): seq<byte>
  {
    if xs == [] then [] else BigEndian(xs[0], k) + NumbersBytes(xs[1..], k)
  }

  /** The payload of a tag that holds no other tags, as both encoders
    * write it. */
  function LeafBytes(t: Tag): seq<byte>
    requires !t.TList? && !t.TCompound?
  {
    match t
    case TByte(b) => [b]
    case TShort(v) => BigEndian(v, 2)
    case TInt(v) => BigEndian(v, 4)
    case TLong(v) => BigEndian(v, 8)
    case TFloat(v) => BigEndian(v, 4)
    case TDouble(v) => BigEndian(v, 8)
    case TByteArray(d) => BigEndian(|d|, 4) + d
    case TString(s) => NameBytes(s)
    case TIntArray(xs) => BigEndian(|xs|, 4) + NumbersBytes(xs, 4)
    case TLongArray(xs) => BigEndian(|xs|, 4) + NumbersBytes(xs, 8)
  }

  /** The NBT payload of a tag: a list is its element type, its length and
    * its items' payloads; a compound is its named members and a TAG_End. */
  function Payload(t: Tag): seq<byte>
    decreases t, 1
  {
    match t
    case TList(et, items) => [et] + BigEndian(|items|, 4) + ItemsBytes(items)
    case TCompound(es) => EntriesBytes(es) + [TagEnd]
    case _ => LeafBytes(t)
  }

  function ItemsBytes(items: seq<Tag>): seq<byte>
    decreases items, 0
  {
    if items == [] then [] else Payload(items[0]) + ItemsBytes(items[1..])
  }

  function EntriesBytes(es: seq<Entry>): seq<byte>
    decreases es, 0
  {
    if es == [] then []
    else TagHeader(TypeOf(es[0].value), es[0].name) + Payload(es[0].value) + EntriesBytes(es[1..])
  }

  /** A named tag as NBT lays it out: header, then payload. */
  function NamedBytes(name: seq<byte>, t: Tag): seq<byte>
  {
    TagHeader(TypeOf(t), name) + Payload(t)
  }

  /** `marshal` as written: `writeHeader` writes a list's header with its
    * element type and length, and `writeValue` the value. */
  function Marshal(name: seq<byte>, t: Tag): seq<byte>
    decreases t, 2
  {
    if t.TList? then ListHeader(t.elemType, name, |t.items|) + WriteValue(t)
    else TagHeader(TypeOf(t), name) + WriteValue(t)
  }

  /** `writeValue` as written. A list's items are written with `writeValue`
    * alone, so an item that is itself a list loses its element type and
    * length. */
  function WriteValue(t: Tag): seq<byte>
    decreases t, 1
  {
    match t
    case TList(_, items) => ValuesBytes(items)
    case TCompound(es) => MarshalEntries(es) + [TagEnd]
    case _ => LeafBytes(t)
  }

  function ValuesBytes(items: seq<Tag>): seq<byte>
    decreases items, 0
  {
    if items == [] then [] else WriteValue(items[0]) + ValuesBytes(items[1..])
  }

  function MarshalEntries(es: seq<Entry>): seq<byte>
    decreases es, 0
  {
    if es == [] then [] else Marshal(es[0].name, es[0].value) + MarshalEntries(es[1..])
  }

  /** No list anywhere in the tree has lists as items. */
  predicate NoListInList(t: Tag)
    decreases t
  {
    match t
    case TList(_, items) => forall i :: 0 <= i < |items| ==> !items[i].TList? && NoListInList(items[i])
    case TCompound(es) => forall i :: 0 <= i < |es| ==> NoListInList(es[i].value)
    case _ => true
  }

  /** Without lists nested in lists, `marshal` writes standard NBT. */
  lemma {:induction false} MarshalIsNamedBytes(name: seq<byte>, t: Tag)
    requires NoListInList(t)
    ensures Marshal(name, t) == NamedBytes(name, t)
    decreases t, 2
  {
    WriteValueIsPayload(t);
    if t.TList? {
      assert Marshal(name, t) == ListHeader(t.elemType, name, |t.items|) + WriteValue(t);
    }
  }

  lemma {:induction false} WriteValueIsPayload(t: Tag)
    requires NoListInList(t)
    ensures t.TList? ==> [t.elemType] + BigEndian(|t.items|, 4) + WriteValue(t) == Payload(t)
    ensures !t.TList? ==> WriteValue(t) == Payload(t)
    decreases t, 1
  {
    match t
    case TList(_, items) => ValuesAreItems(items);
    case TCompound(es) => MarshalEntriesAreEntries(es);
    case _ =>
  }

  lemma {:induction false} ValuesAreItems(items: seq<Tag>)
    requires forall i :: 0 <= i < |items| ==> !items[i].TList? && NoListInList(items[i])
    ensures ValuesBytes(items) == ItemsBytes(items)
    decreases items, 0
  {
    if items != [] {
      WriteValueIsPayload(items[0]);
      ValuesAreItems(items[1..]);
    }
  }

  lemma {:induction false} MarshalEntriesAreEntries(es: seq<Entry>)
    requires forall i :: 0 <= i < |es| ==> NoListInList(es[i].value)
    ensures MarshalEntries(es) == EntriesBytes(es)
    decreases es, 0
  {
    if es != [] {
      MarshalIsNamedBytes(es[0].name, es[0].value);
      MarshalEntriesAreEntries(es[1..]);
    }
  }

  // ---------------------------------------------------------------------
  // Decoding: the byte source (a bytes.Reader)
  // ---------------------------------------------------------------------

  const EOF := "EOF"
  const UnexpectedEOF := "unexpected EOF"
  const NegativeString := "string length less than 0"
  const OnlyEnd := "NBT with only Tag_End"
  const NegativeByteArray := "byte array len less than 0"
  const NegativeList := "list length less than 0"
  const NegativeSlice := "reflect.MakeSlice: negative len"

  /** Two lower-case hexadecimal digits, as `%02x` prints a byte. */
  function Hex(b: byte): (r: string)
    ensures |r| == 2
  {
    var digits := "0123456789abcdef";
    [digits[b / 16], digits[b % 16]]
  }

  /** Adjacent slices concatenate. */
  lemma Slices(data: seq<byte>, a: nat, b: nat, c: nat)
    requires a <= b <= c <= |data|
    ensures data[a..c] == data[a..b] + data[b..c]
  {
  }

  /** `ReadByte`: one byte, or `io.EOF` at the end. */
  function ByteAt(data: seq<byte>, off: nat): (r: Result<(byte, nat)>)
    requires off <= |data|
    ensures r.Ok? <==> off < |data|
    ensures r.Ok? ==> r.value == (data[off], off + 1)
  {
    if off < |data| then Ok((data[off], off + 1)) else Err(EOF)
  }

  /** `io.ReadFull` of `k` bytes: `io.EOF` when nothing is left,
    * `io.ErrUnexpectedEOF` when only part of them is. */
  function FullAt(data: seq<byte>, off: nat, k: nat): (r: Result<(seq<byte>, nat)>)
    requires off <= |data|
    ensures r.Ok? <==> off + k <= |data|
    ensures r.Ok? ==> r.value == (data[off..off + k], off + k)
    ensures r.Err? ==> r.error == (if off == |data| then EOF else UnexpectedEOF)
  {
    if off + k <= |data| then Ok((data[off..off + k], off + k))
    else if off == |data| then Err(EOF)
    else Err(UnexpectedEOF)
  }

  /** `readInt16`, `readInt32`, `readInt64`: `k` big-endian bytes read as
    * two's complement. */
  function IntAt(data: seq<byte>, off: nat, k: nat): (r: Result<(int, nat)>)
    requires off <= |data| && 0 < k
    ensures r.Ok? <==> off + k <= |data|
    ensures r.Ok? ==> r.value.1 == off + k && InSigned(r.value.0, k)
  {
    match FullAt(data, off, k)
    case Err(e) => Err(e)
    case Ok((b, next)) =>
      SignedEncodes(b);
      Ok((Signed(Unsigned(b), k), next))
  }

  /** The number read is the one whose two's complement pattern was read. */
  lemma IntAtEncodes(data: seq<byte>, off: nat, k: nat)
    requires off <= |data| && 0 < k && IntAt(data, off, k).Ok?
    ensures BigEndian(IntAt(data, off, k).value.0, k) == data[off..off + k]
  {
    SignedEncodes(data[off..off + k]);
  }

  /** The two's complement reading of a pattern encodes back to it. */
  lemma SignedEncodes(b: seq<byte>)
    requires 0 < |b|
    ensures InSigned(Signed(Unsigned(b), |b|), |b|)
    ensures BigEndian(Signed(Unsigned(b), |b|), |b|) == b
  {
    SignedPattern(b, |b|, Unsigned(b), Pow256(|b|));
  }

  lemma SignedPattern(b: seq<byte>, k: nat, u: nat, p: nat)
    requires 0 < k == |b| && u == Unsigned(b) && p == Pow256(k)
    ensures InSigned(Signed(u, k), k)
    ensures BigEndian(Signed(u, k), k) == b
  {
    PowEven(k);
    SignedMod(u, p);
    BigEndianMod(Signed(u, k), k);
    BigEndianOfUnsigned(b);
  }

  lemma PowEven(k: nat)
    requires 0 < k
    ensures Pow256(k) % 2 == 0
  {
    assert Pow256(k) == 2 * (128 * Pow256(k - 1));
  }

  lemma SignedMod(u: int, p: int)
    requires p > 0 && p % 2 == 0 && 0 <= u < p
    ensures var s := if u >= p / 2 then u - p else u;
      s % p == u && -(p / 2) <= s < p / 2
  {
    if u >= p / 2 {
      DivModUnique(u - p, p, -1, u);
    } else {
      DivModUnique(u, p, 0, u);
    }
  }

  /** `readString`: a 16-bit length, refused when negative, then that many
    * bytes (none are read for length 0). */
  function StringAt(data: seq<byte>, off: nat): (r: Result<(seq<byte>, nat)>)
    requires off <= |data|
    ensures r.Ok? ==> r.value.1 == off + 2 + |r.value.0| <= |data| && |r.value.0| < 0x8000
  {
    match IntAt(data, off, 2)
    case Err(e) => Err(e)
    case Ok((n, next)) =>
      if n < 0 then Err(NegativeString)
      else if n > 0 then
        match FullAt(data, next, n)
        case Err(e) => Err(e)
        case Ok((s, end)) => Ok((s, end))
      else
        Ok(([], next))
  }

  /** The bytes `readString` consumes are the encoding of the string read. */
  lemma StringAtEncodes(data: seq<byte>, off: nat)
    requires off <= |data| && StringAt(data, off).Ok?
    ensures data[off..StringAt(data, off).value.1] == NameBytes(StringAt(data, off).value.0)
  {
    var (s, end) := StringAt(data, off).value;
    IntAtEncodes(data, off, 2);
    Slices(data, off, off + 2, end);
  }

  /** `readTag`: the type byte, then a name unless the type is TAG_End. */
  function TagAt(data: seq<byte>, off: nat): (r: Result<((byte, seq<byte>), nat)>)
    requires off <= |data|
    ensures r.Ok? ==> off < r.value.1 <= |data|
    ensures r.Ok? && r.value.0.0 == TagEnd ==> r.value.0.1 == [] && r.value.1 == off + 1
    ensures r.Ok? && r.value.0.0 != TagEnd ==>
      |r.value.0.1| < 0x8000 && r.value.1 == off + 3 + |r.value.0.1|
  {
    match ByteAt(data, off)
    case Err(e) => Err(e)
    case Ok((t, next)) =>
      if t == TagEnd then Ok(((t, []), next))
      else
        match StringAt(data, next)
        case Err(e) => Err(e)
        case Ok((name, end)) => Ok(((t, name), end))
  }

  /** The bytes `readTag` consumes are the header of the tag read. */
  lemma TagAtEncodes(data: seq<byte>, off: nat)
    requires off <= |data| && TagAt(data, off).Ok? && TagAt(data, off).value.0.0 != TagEnd
    ensures var ((t, name), end) := TagAt(data, off).value;
      data[off..end] == TagHeader(t, name)
  {
    var ((t, name), end) := TagAt(data, off).value;
    StringAtEncodes(data, off + 1);
    Slices(data, off, off + 1, end);
    assert data[off..off + 1] == [t];
  }

  // ---------------------------------------------------------------------
  // Decoding: unmarshal into generic values
  // ---------------------------------------------------------------------

  /** Prefixing the values read so far to the result of the rest. */
  function Prepend<T>(xs: seq<T>, r: Result<(seq<T>, nat)>): Result<(seq<T>, nat)>
  {
    match r
    case Err(e) => Err(e)
    case Ok((ys, end)) => Ok((xs + ys, end))
  }

  /** `n` fixed-width numbers in a row (the loops of the array tags). */
  function NumbersAt(data: seq<byte>, off: nat, n: nat, k: nat): (r: Result<(seq<int>, nat)>)
    requires off <= |data| && 0 < k
    ensures r.Ok? ==> |r.value.0| == n && off <= r.value.1 <= |data|
    decreases n
  {
    if n == 0 then Ok(([], off))
    else
      match IntAt(data, off, k)
      case Err(e) => Err(e)
      case Ok((v, next)) => Prepend([v], NumbersAt(data, next, n - 1, k))
  }

  /** The numbers read fit their width, and the bytes consumed are their
    * encoding. */
  lemma {:induction false} NumbersAtEncodes(data: seq<byte>, off: nat, n: nat, k: nat)
    requires off <= |data| && 0 < k && NumbersAt(data, off, n, k).Ok?
    ensures var (xs, end) := NumbersAt(data, off, n, k).value;
      (forall i :: 0 <= i < n ==> InSigned(xs[i], k)) && data[off..end] == NumbersBytes(xs, k)
    decreases n
  {
    if n > 0 {
      var (v, next) := IntAt(data, off, k).value;
      IntAtEncodes(data, off, k);
      NumbersAtEncodes(data, next, n - 1, k);
      var (rest, end) := NumbersAt(data, next, n - 1, k).value;
      var xs := NumbersAt(data, off, n, k).value.0;
      assert xs == [v] + rest && xs[1..] == rest;
      Slices(data, off, next, end);
    }
  }

  /** `unmarshal` of a payload of type `t` into an `interface{}` value. */
  function ValueAt(data: seq<byte>, off: nat, t: byte): (r: Result<(Tag, nat)>)
    requires off <= |data|
    ensures r.Ok? ==> off < r.value.1 <= |data| && TypeOf(r.value.0) == t
    decreases |data| - off, 1, 0
  {
    if t == TagEnd then Err(OnlyEnd)
    else if TagByte <= t <= TagDouble || t == TagString then ScalarAt(data, off, t)
    else if IsArrayTag(t) then ArrayAt(data, off, t)
    else if t == TagList then ListAt(data, off)
    else if t == TagCompound then
      match EntriesAt(data, off)
      case Err(e) => Err(e)
      case Ok((es, end)) => Ok((TCompound(es), end))
    else
      Err("unknown Tag 0x" + Hex(t))
  }

  /** The numbers and strings. A float or double is read as a signed number
    * and converted to its unsigned bit pattern. */
  function ScalarAt(data: seq<byte>, off: nat, t: byte): (r: Result<(Tag, nat)>)
    requires off <= |data| && (TagByte <= t <= TagDouble || t == TagString)
    ensures r.Ok? ==> off < r.value.1 <= |data| && TypeOf(r.value.0) == t
  {
    if t == TagByte then
      match ByteAt(data, off)
      case Err(e) => Err(e)
      case Ok((b, next)) => Ok((TByte(b), next))
    else if t == TagString then
      match StringAt(data, off)
      case Err(e) => Err(e)
      case Ok((s, next)) => Ok((TString(s), next))
    else
      var k := if t == TagShort then 2 else if t == TagInt || t == TagFloat then 4 else 8;
      match IntAt(data, off, k)
      case Err(e) => Err(e)
      case Ok((v, next)) =>
        var tag :=
          if t == TagShort then TShort(v)
          else if t == TagInt then TInt(v)
          else if t == TagLong then TLong(v)
          else if t == TagFloat then TFloat(v % Pow256(4))
          else TDouble(v % Pow256(8));
        Ok((tag, next))
  }

  /** The array tags: a 32-bit length, then the elements. A negative length
    * is refused for a byte array and makes `reflect.MakeSlice` panic for the
    * others. */
  function ArrayAt(data: seq<byte>, off: nat, t: byte): (r: Result<(Tag, nat)>)
    requires off <= |data| && IsArrayTag(t)
    ensures r.Ok? ==> off < r.value.1 <= |data| && TypeOf(r.value.0) == t
  {
    match IntAt(data, off, 4)
    case Err(e) => Err(e)
    case Ok((n, next)) =>
      if n < 0 then Err(if t == TagByteArray then NegativeByteArray else NegativeSlice)
      else if t == TagByteArray then
        match FullAt(data, next, n)
        case Err(e) => Err(e)
        case Ok((d, end)) => Ok((TByteArray(d), end))
      else
        match NumbersAt(data, next, n, if t == TagIntArray then 4 else 8)
        case Err(e) => Err(e)
        case Ok((xs, end)) => Ok((if t == TagIntArray then TIntArray(xs) else TLongArray(xs), end))
  }

  /** A list: the element type, a 32-bit length refused when negative, then
    * the items. */
  function ListAt(data: seq<byte>, off: nat): (r: Result<(Tag, nat)>)
    requires off <= |data|
    ensures r.Ok? ==> off < r.value.1 <= |data| && r.value.0.TList?
    decreases |data| - off, 0, 0
  {
    match ByteAt(data, off)
    case Err(e) => Err(e)
    case Ok((et, next)) =>
      match IntAt(data, next, 4)
      case Err(e) => Err(e)
      case Ok((n, start)) =>
        if n < 0 then Err(NegativeList)
        else
          match ItemsAt(data, start, et, n)
          case Err(e) => Err(e)
          case Ok((items, end)) => Ok((TList(et, items), end))
  }

  /** The `n` items of a list of element type `t`. */
  function ItemsAt(data: seq<byte>, off: nat, t: byte, n: nat): (r: Result<(seq<Tag>, nat)>)
    requires off <= |data|
    ensures r.Ok? ==> off <= r.value.1 <= |data| && |r.value.0| == n
    decreases |data| - off, 2, n
  {
    if n == 0 then Ok(([], off))
    else
      match ValueAt(data, off, t)
      case Err(e) => Err(e)
      case Ok((v, next)) => Prepend([v], ItemsAt(data, next, t, n - 1))
  }

  /** A compound's members up to and including its TAG_End; a member that
    * fails to decode has its error prefixed with its quoted name. */
  function EntriesAt(data: seq<byte>, off: nat): (r: Result<(seq<Entry>, nat)>)
    requires off <= |data|
    ensures r.Ok? ==> off < r.value.1 <= |data|
    decreases |data| - off, 0, 0
  {
    match TagAt(data, off)
    case Err(e) => Err(e)
    case Ok((header, next)) =>
      if header.0 == TagEnd then Ok(([], next))
      else
        match ValueAt(data, next, header.0)
        case Err(e) => Err("fail to decode tag " + Quote(header.1) + ": " + e)
        case Ok((v, after)) =>
          Prepend([Entry(header.1, v)], EntriesAt(data, after))
  }

  // ---------------------------------------------------------------------
  // Decoding: rawRead, which skips a payload
  // ---------------------------------------------------------------------

  /** `rawRead`: the offset just past one payload of type `t`. Unlike
    * `unmarshal`, it accepts negative array and list lengths (reading
    * nothing for them) and fails on TAG_End. */
  function SkipAt(data: seq<byte>, off: nat, t: byte): (r: Result<nat>)
    requires off <= |data|
    ensures r.Ok? ==> off < r.value <= |data|
    decreases |data| - off, 1, 0
  {
    if t == TagByte then
      match ByteAt(data, off)
      case Err(e) => Err(e)
      case Ok((_, next)) => Ok(next)
    else if t == TagString then
      match StringAt(data, off)
      case Err(e) => Err(e)
      case Ok((_, next)) => Ok(next)
    else if t == TagShort || t == TagInt || t == TagFloat || t == TagLong || t == TagDouble then
      var k := if t == TagShort then 2 else if t == TagInt || t == TagFloat then 4 else 8;
      match FullAt(data, off, k)
      case Err(e) => Err(e)
      case Ok((_, next)) => Ok(next)
    else if t == TagByteArray then
      match IntAt(data, off, 4)
      case Err(e) => Err(e)
      case Ok((n, next)) =>
        if n <= 0 then Ok(next)
        else if next + n <= |data| then Ok(next + n)
        else Err(EOF)
    else if t == TagIntArray || t == TagLongArray then
      var k := if t == TagIntArray then 4 else 8;
      match IntAt(data, off, 4)
      case Err(e) => Err(e)
      case Ok((n, next)) =>
        match NumbersAt(data, next, if n < 0 then 0 else n, k)
        case Err(e) => Err(e)
        case Ok((_, end)) => Ok(end)
    else if t == TagList then
      match ByteAt(data, off)
      case Err(e) => Err(e)
      case Ok((et, next)) =>
        match IntAt(data, next, 4)
        case Err(e) => Err(e)
        case Ok((n, start)) => SkipItemsAt(data, start, et, if n < 0 then 0 else n)
    else if t == TagCompound then
      SkipEntriesAt(data, off)
    else
      Err("unknown to read 0x" + Hex(t))
  }

  function SkipItemsAt(data: seq<byte>, off: nat, t: byte, n: nat): (r: Result<nat>)
    requires off <= |data|
    ensures r.Ok? ==> off <= r.value <= |data|
    decreases |data| - off, 2, n
  {
    if n == 0 then Ok(off)
    else
      match SkipAt(data, off, t)
      case Err(e) => Err(e)
      case Ok(next) => SkipItemsAt(data, next, t, n - 1)
  }

  function SkipEntriesAt(data: seq<byte>, off: nat): (r: Result<nat>)
    requires off <= |data|
    ensures r.Ok? ==> off < r.value <= |data|
    decreases |data| - off, 0, 0
  {
    match TagAt(data, off)
    case Err(e) => Err(e)
    case Ok((header, next)) =>
      if header.0 == TagEnd then Ok(next)
      else
        match SkipAt(data, next, header.0)
        case Err(e) => Err(e)
        case Ok(after) => SkipEntriesAt(data, after)
  }

  // ---------------------------------------------------------------------
  // Decode
  // ---------------------------------------------------------------------

  /** `checkCompressed`: the first byte of a gzip member (RFC 1952, section
    * 2.3.1) or of a zlib stream with the deflate method (RFC 1950, section
    * 2.2); the empty string otherwise. */
  function CheckCompressed(head: byte): (r: string)
    ensures r != "" <==> head == 0x1f || head == 0x78
  {
    if head == 0x1f then "gzip" else if head == 0x78 then "zlib" else ""
  }

  /** One byte of a name as Go's `%q` verb writes it: printable ASCII as
    * itself, `"` and `\` escaped with a backslash, the single-letter escapes
    * for the control characters that have one, and `\x` with two hex digits
    * for every other byte. */
  function QuoteByte(b: byte): (r: string)
    ensures 1 <= |r| <= 4
  {
    if b == 0x22 then "\\\""
    else if b == 0x5c then "\\\\"
    else if 0x20 <= b < 0x7f then [b as char]
    else if b == 0x07 then "\\a"
    else if b == 0x08 then "\\b"
    else if b == 0x0c then "\\f"
    else if b == 0x0a then "\\n"
    else if b == 0x0d then "\\r"
    else if b == 0x09 then "\\t"
    else if b == 0x0b then "\\v"
    else "\\x" + Hex(b)
  }

  function QuoteBytes(s: seq<byte>): (r: string)
    ensures |r| >= |s|
  {
    if s == [] then "" else QuoteByte(s[0]) + QuoteBytes(s[1..])
  }

  /** A tag name as `%q` prints it: between double quotes, escaped. */
  function Quote(name: seq<byte>): (r: string)
    ensures |r| >= |name| + 2 && r[0] == '"' && r[|r| - 1] == '"'
  {
    "\"" + QuoteBytes(name) + "\""
  }

  /** A name of printable ASCII without `"` or `\` is printed as it is,
    * between the quotes. */
  lemma {:induction false} QuotePlain(name: seq<byte>)
    requires forall i :: 0 <= i < |name| ==> 0x20 <= name[i] < 0x7f && name[i] != 0x22 && name[i] != 0x5c
    ensures |QuoteBytes(name)| == |name|
    ensures forall i :: 0 <= i < |name| ==> QuoteBytes(name)[i] == name[i] as char
  {
    if name != [] {
      QuotePlain(name[1..]);
    }
  }

  /** `Decode` into an `interface{}`: the root tag's header, the compression
    * check, then its payload. */
  function Decode(data: seq<byte>): (r: Result<((seq<byte>, Tag), nat)>)
    ensures r.Ok? ==> 0 < r.value.1 <= |data|
  {
    match TagAt(data, 0)
    case Err(e) => Err("nbt: " + e)
    case Ok((header, next)) =>
      var c := CheckCompressed(header.0);
      if c != "" then Err("nbt: unknown Tag, maybe need " + c)
      else
        match ValueAt(data, next, header.0)
        case Err(e) => Err("nbt: fail to decode tag " + Quote(header.1) + ": " + e)
        case Ok((v, end)) => Ok(((header.1, v), end))
  }
}
