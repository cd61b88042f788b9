/** The streaming NBT writer (`NbtWriter` in minecraft/nbt.go): it appends
  * named tags to a packet `Writer` and keeps a stack (`hierarchy`) of the
  * compounds still open.
  *
  * Besides the concrete fields, each writer carries a ghost account of what
  * it has written: the named tags already complete at the top level
  * (`closed`) and, for every open compound, its name and the members written
  * into it so far (`frames`). `Valid` ties the bytes in the packet buffer to
  * that account, so a document that every `Push*` and `EndCompound` has
  * kept valid is standard NBT that `Decode` reads back. */
module NbtWriters {
  import opened Bytes
  import opened Wrappers
  import opened Nbt
  import opened Writers
  import NbtLaws

  /** An open compound: its name and the members written into it so far. */
  datatype Frame = Frame(name: seq<byte>, entries: seq<Entry>)

  /** The bytes of the open compounds, outermost first: each one's header
    * and members, without the closing TAG_End. */
  function OpenBytes(frames: seq<Frame>): seq<byte>
    decreases |frames|
  {
    if frames == [] then []
    else
      var f := frames[|frames| - 1];
      OpenBytes(frames[..|frames| - 1]) + TagHeader(TagCompound, f.name) + EntriesBytes(f.entries)
  }

  /** Where a finished named tag goes: into the innermost open compound, or
    * to the top level when none is open. */
  function AddEntry(closed: seq<Entry>, frames: seq<Frame>, e: Entry): (r: (seq<Entry>, seq<Frame>))
    ensures |r.1| == |frames|
    ensures frames == [] ==> r.0 == closed + [e]
    ensures frames != [] ==>
      (r.0 == closed && r.1[..|frames| - 1] == frames[..|frames| - 1]
       && r.1[|frames| - 1].name == frames[|frames| - 1].name
       && r.1[|frames| - 1].entries == frames[|frames| - 1].entries + [e])
  {
    if frames == [] then (closed + [e], [])
    else
      var f := frames[|frames| - 1];
      (closed, frames[..|frames| - 1] + [Frame(f.name, f.entries + [e])])
  }

  /** Appending a member to a compound's members appends its named bytes. */
  lemma {:induction false} EntriesAppend(es: seq<Entry>, e: Entry)
    ensures EntriesBytes(es + [e]) == EntriesBytes(es) + NamedBytes(e.name, e.value)
    decreases es
  {
    if es == [] {
      assert [e][1..] == [];
    } else {
      assert (es + [e])[1..] == es[1..] + [e];
      EntriesAppend(es[1..], e);
    }
  }

  /** Recording a finished tag accounts for exactly its named bytes. */
  lemma AddEntryBytes(closed: seq<Entry>, frames: seq<Frame>, e: Entry)
    ensures var (c, fs) := AddEntry(closed, frames, e);
      EntriesBytes(c) + OpenBytes(fs) == EntriesBytes(closed) + OpenBytes(frames) + NamedBytes(e.name, e.value)
  {
    if frames == [] {
      EntriesAppend(closed, e);
    } else {
      AddInnerBytes(closed, frames, e);
    }
  }

  /** A tag finished inside a compound extends that compound's bytes. */
  lemma AddInnerBytes(closed: seq<Entry>, frames: seq<Frame>, e: Entry)
    requires frames != []
    ensures EntriesBytes(closed) + OpenBytes(AddEntry(closed, frames, e).1)
      == EntriesBytes(closed) + OpenBytes(frames) + NamedBytes(e.name, e.value)
  {
    var f, init := frames[|frames| - 1], frames[..|frames| - 1];
    var fs := AddEntry(closed, frames, e).1;
    var h, es, n := TagHeader(TagCompound, f.name), EntriesBytes(f.entries), NamedBytes(e.name, e.value);
    assert fs[..|fs| - 1] == init;
    EntriesAppend(f.entries, e);
    assert OpenBytes(fs) == OpenBytes(init) + h + (es + n);
    assert OpenBytes(frames) == OpenBytes(init) + h + es;
    Append3(OpenBytes(init) + h, es, n);
    Append3(EntriesBytes(closed), OpenBytes(frames), n);
  }

  lemma AddEntryData(data: seq<byte>, base: seq<byte>, closed: seq<Entry>, frames: seq<Frame>, e: Entry)
    requires data == base + EntriesBytes(closed) + OpenBytes(frames) + NamedBytes(e.name, e.value)
    ensures var (c, fs) := AddEntry(closed, frames, e);
      data == base + EntriesBytes(c) + OpenBytes(fs)
  {
    var (c, fs) := AddEntry(closed, frames, e);
    AddEntryBytes(closed, frames, e);
    Regroup(data, base, EntriesBytes(closed), OpenBytes(frames), NamedBytes(e.name, e.value),
      EntriesBytes(c), OpenBytes(fs));
  }

  lemma Regroup(data: seq<byte>, base: seq<byte>, a: seq<byte>, b: seq<byte>, n: seq<byte>,
                c: seq<byte>, d: seq<byte>)
    requires data == base + a + b + n && c + d == a + b + n
    ensures data == base + c + d
  {
    assert data == base + (a + b + n);
    assert base + c + d == base + (c + d);
  }

  /** A header, a length and the elements, written one after the other. */
  lemma Appended(before: seq<byte>, a: seq<byte>, b: seq<byte>, c: seq<byte>, data: seq<byte>)
    requires data == before + a + b + c
    ensures data == before + (a + (b + c))
  {
  }

  /** Closing the innermost compound turns its header and members, with the
    * TAG_End just written, into one named compound tag. */
  lemma CloseBytes(frames: seq<Frame>)
    requires frames != []
    ensures var f := frames[|frames| - 1];
      OpenBytes(frames) + [TagEnd]
        == OpenBytes(frames[..|frames| - 1]) + NamedBytes(f.name, TCompound(f.entries))
  {
    var f := frames[|frames| - 1];
    var outer := OpenBytes(frames[..|frames| - 1]);
    var h, es := TagHeader(TagCompound, f.name), EntriesBytes(f.entries);
    assert OpenBytes(frames) == outer + h + es;
    assert NamedBytes(f.name, TCompound(f.entries)) == h + (es + [TagEnd]);
    Append3(outer, h, es);
    Append3(outer, h + es, [TagEnd]);
    Append3(h, es, [TagEnd]);
  }

  lemma CloseData(data: seq<byte>, base: seq<byte>, closed: seq<Entry>, frames: seq<Frame>)
    requires frames != [] && data == base + EntriesBytes(closed) + OpenBytes(frames) + [TagEnd]
    ensures var f := frames[|frames| - 1];
      data == base + EntriesBytes(closed) + OpenBytes(frames[..|frames| - 1]) + NamedBytes(f.name, TCompound(f.entries))
  {
    var f := frames[|frames| - 1];
    CloseBytes(frames);
    Regroup2(data, base, EntriesBytes(closed), OpenBytes(frames), [TagEnd],
      OpenBytes(frames[..|frames| - 1]), NamedBytes(f.name, TCompound(f.entries)));
  }

  lemma Regroup2(data: seq<byte>, base: seq<byte>, a: seq<byte>, b: seq<byte>, t: seq<byte>,
                 c: seq<byte>, n: seq<byte>)
    requires data == base + a + b + t && b + t == c + n
    ensures data == base + a + c + n
  {
    assert data == (base + a) + (b + t);
    assert base + a + c + n == (base + a) + (c + n);
  }

  /** A leaf tag's named bytes are its header and its leaf payload. */
  lemma LeafNamed(name: seq<byte>, t: Tag)
    requires !t.TList? && !t.TCompound?
    ensures NamedBytes(name, t) == TagHeader(TypeOf(t), name) + LeafBytes(t)
  {
  }

  /** Go's `int16(n)` and `int32(n)` keep the low 16 or 32 bits, so writing
    * the converted number big-endian gives the same bytes as the number. */
  lemma WrapEncodes(v: int, k: nat)
    requires 0 < k
    ensures InSigned(Wrap(v, k), k)
    ensures BigEndian(Wrap(v, k), k) == BigEndian(v, k)
  {
    var p := Pow256(k);
    PowEven(k);
    SignedMod(v % p, p);
    BigEndianMod(Wrap(v, k), k);
    BigEndianMod(v, k);
  }

  /** One more number of a sequence, written after those before it. */
  lemma NumbersStep(xs: seq<int>, i: nat, k: nat)
    requires i < |xs|
    ensures NumbersBytes(xs[..i + 1], k) == NumbersBytes(xs[..i], k) + BigEndian(xs[i], k)
  {
    assert xs[..i + 1] == xs[..i] + [xs[i]];
    NumbersSnoc(xs[..i], xs[i], k);
  }

  lemma {:induction false} NumbersSnoc(xs: seq<int>, x: int, k: nat)
    ensures NumbersBytes(xs + [x], k) == NumbersBytes(xs, k) + BigEndian(x, k)
    decreases xs
  {
    if xs == [] {
      assert [x][1..] == [];
    } else {
      assert (xs + [x])[1..] == xs[1..] + [x];
      NumbersSnoc(xs[1..], x, k);
    }
  }

  predicate AllCompounds(hierarchy: seq<byte>)
  {
    forall i :: 0 <= i < |hierarchy| ==> hierarchy[i] == TagCompound
  }

  class NbtWriter {
    const w: Writer
    var hierarchy: seq<byte>
    var listSizeStack: seq<int>
    var listSizeOffsetStack: seq<int>
    /** The buffer's contents when the writer was started. */
    ghost var base: seq<byte>
    /** Named tags completed at the top level, in order. */
    ghost var closed: seq<Entry>
    /** The open compounds, outermost first, one per `hierarchy` entry. */
    ghost var frames: seq<Frame>

    /** Only compounds are ever pushed (the source has no list API), and the
      * buffer holds what was there before, the completed tags and the open
      * compounds. */
    ghost predicate Valid()
      reads this, w
    {
      |frames| == |hierarchy| && AllCompounds(hierarchy)
      && w.data == base + EntriesBytes(closed) + OpenBytes(frames)
    }

    /** `Writer.StartNBT`: a writer over `w` with every stack empty. */
    constructor (w: Writer)
      ensures this.w == w && Valid()
      ensures hierarchy == [] && listSizeStack == [] && listSizeOffsetStack == []
      ensures base == w.data && closed == [] && frames == []
    {
      this.w := w;
      hierarchy := [];
      listSizeStack := [];
      listSizeOffsetStack := [];
      base := w.data;
      closed := [];
      frames := [];
    }

    predicate InList()
      reads this
    {
      |hierarchy| > 0 && hierarchy[|hierarchy| - 1] == TagList
    }

    /** `emitString`: the length as an `int16`, then the bytes. */
    method EmitString(val: seq<byte>)
      modifies w
      ensures w.data == old(w.data) + NameBytes(val)
    {
      var n := Wrap(|val|, 2);
      WrapEncodes(|val|, 2);
      assert Pow256(2) == 0x1_0000;
      w.WriteShort(n);
      w.WriteBytes(val);
    }

    /** `pushListElement`: counts one more element of the open list, if the
      * innermost open tag is a list. */
    method PushListElement()
      requires InList() ==> |listSizeStack| > 0
      modifies this
      ensures hierarchy == old(hierarchy) && listSizeOffsetStack == old(listSizeOffsetStack)
      ensures base == old(base) && closed == old(closed) && frames == old(frames)
      ensures !InList() ==> listSizeStack == old(listSizeStack)
      ensures InList() ==>
        (|listSizeStack| == |old(listSizeStack)|
         && listSizeStack[..|listSizeStack| - 1] == old(listSizeStack)[..|listSizeStack| - 1]
         && listSizeStack[|listSizeStack| - 1] == old(listSizeStack)[|listSizeStack| - 1] + 1)
    {
      if |hierarchy| != 0 {
        if hierarchy[|hierarchy| - 1] == TagList {
          var top := |listSizeStack| - 1;
          listSizeStack := listSizeStack[top := listSizeStack[top] + 1];
        }
      }
    }

    /** `emitTagHeader`: the type byte and the name, unless the innermost
      * open tag is a TAG_End (which never happens, since only compounds are
      * pushed); then the list element count. */
    method EmitTagHeader(t: byte, name: seq<byte>)
      requires InList() ==> |listSizeStack| > 0
      modifies this, w
      ensures hierarchy == old(hierarchy) && listSizeOffsetStack == old(listSizeOffsetStack)
      ensures base == old(base) && closed == old(closed) && frames == old(frames)
      ensures |hierarchy| == 0 || hierarchy[|hierarchy| - 1] != TagEnd ==>
        w.data == old(w.data) + TagHeader(t, name)
      ensures |hierarchy| > 0 && hierarchy[|hierarchy| - 1] == TagEnd ==> w.data == old(w.data)
      ensures !InList() ==> listSizeStack == old(listSizeStack)
    {
      if |hierarchy| == 0 || hierarchy[|hierarchy| - 1] != TagEnd {
        w.WriteByte(t);
        EmitString(name);
      }
      PushListElement();
    }

    /** Files a finished tag in the ghost account once its bytes are out. */
    ghost method Record(e: Entry)
      requires |frames| == |hierarchy| && AllCompounds(hierarchy)
      requires w.data == base + EntriesBytes(closed) + OpenBytes(frames) + NamedBytes(e.name, e.value)
      modifies this
      ensures hierarchy == old(hierarchy) && listSizeStack == old(listSizeStack)
      ensures listSizeOffsetStack == old(listSizeOffsetStack) && base == old(base)
      ensures (closed, frames) == AddEntry(old(closed), old(frames), e)
      ensures Valid()
    {
      var (c, fs) := AddEntry(closed, frames, e);
      AddEntryData(w.data, base, closed, frames, e);
      closed, frames := c, fs;
    }

    /** `PushByte`: an `int8` written as its byte pattern. */
    method PushByte(val: int8, name: seq<byte>)
      requires Valid()
      modifies this, w
      ensures Valid()
      ensures w.data == old(w.data) + NamedBytes(name, TByte(val % 256))
      ensures hierarchy == old(hierarchy) && listSizeStack == old(listSizeStack)
      ensures base == old(base) && (closed, frames) == AddEntry(old(closed), old(frames), Entry(name, TByte(val % 256)))
    {
      EmitTagHeader(TagByte, name);
      w.WriteByte(val % 256);
      LeafNamed(name, TByte(val % 256));
      Record(Entry(name, TByte(val % 256)));
    }

    method PushBool(val: bool, name: seq<byte>)
      requires Valid()
      modifies this, w
      ensures Valid()
      ensures w.data == old(w.data) + NamedBytes(name, TByte(if val then 1 else 0))
      ensures hierarchy == old(hierarchy) && listSizeStack == old(listSizeStack)
      ensures base == old(base)
      ensures (closed, frames) == AddEntry(old(closed), old(frames), Entry(name, TByte(if val then 1 else 0)))
    {
      EmitTagHeader(TagByte, name);
      if val {
        w.WriteByte(1);
      } else {
        w.WriteByte(0);
      }
      LeafNamed(name, TByte(if val then 1 else 0));
      Record(Entry(name, TByte(if val then 1 else 0)));
    }

    /** `PushShort` as written: the header carries the TAG_Byte type id,
      * followed by a two-byte payload. The stream no longer matches the
      * account, so `Valid` is not kept. */
    method PushShort(val: int16, name: seq<byte>)
      requires Valid()
      modifies this, w
      ensures w.data == old(w.data) + TagHeader(TagByte, name) + BigEndian(val, 2)
      ensures hierarchy == old(hierarchy) && listSizeStack == old(listSizeStack)
    {
      EmitTagHeader(TagByte, name);
      w.WriteShort(val);
    }

    /** `PushShort` with the TAG_Short type id it evidently intends. */
    method PushShortFixed(val: int16, name: seq<byte>)
      requires Valid()
      modifies this, w
      ensures Valid()
      ensures w.data == old(w.data) + NamedBytes(name, TShort(val))
      ensures hierarchy == old(hierarchy) && listSizeStack == old(listSizeStack)
      ensures base == old(base) && (closed, frames) == AddEntry(old(closed), old(frames), Entry(name, TShort(val)))
    {
      EmitTagHeader(TagShort, name);
      w.WriteShort(val);
      LeafNamed(name, TShort(val));
      Record(Entry(name, TShort(val)));
    }

    method PushInt(val: int32, name: seq<byte>)
      requires Valid()
      modifies this, w
      ensures Valid()
      ensures w.data == old(w.data) + NamedBytes(name, TInt(val))
      ensures hierarchy == old(hierarchy) && listSizeStack == old(listSizeStack)
      ensures base == old(base) && (closed, frames) == AddEntry(old(closed), old(frames), Entry(name, TInt(val)))
    {
      EmitTagHeader(TagInt, name);
      w.WriteInt(val);
      LeafNamed(name, TInt(val));
      Record(Entry(name, TInt(val)));
    }

    method PushLong(val: int64, name: seq<byte>)
      requires Valid()
      modifies this, w
      ensures Valid()
      ensures w.data == old(w.data) + NamedBytes(name, TLong(val))
      ensures hierarchy == old(hierarchy) && listSizeStack == old(listSizeStack)
      ensures base == old(base) && (closed, frames) == AddEntry(old(closed), old(frames), Entry(name, TLong(val)))
    {
      EmitTagHeader(TagLong, name);
      w.WriteLong(val);
      LeafNamed(name, TLong(val));
      Record(Entry(name, TLong(val)));
    }

    /** `PushFloat`: the `float32` is given as its IEEE 754 bit pattern. */
    method PushFloat(bits: uint32, name: seq<byte>)
      requires Valid()
      modifies this, w
      ensures Valid()
      ensures w.data == old(w.data) + NamedBytes(name, TFloat(bits))
      ensures hierarchy == old(hierarchy) && listSizeStack == old(listSizeStack)
      ensures base == old(base) && (closed, frames) == AddEntry(old(closed), old(frames), Entry(name, TFloat(bits)))
    {
      EmitTagHeader(TagFloat, name);
      w.WriteFloat(bits);
      LeafNamed(name, TFloat(bits));
      Record(Entry(name, TFloat(bits)));
    }

    /** `PushDouble`: the `float64` is given as its IEEE 754 bit pattern. */
    method PushDouble(bits: uint64, name: seq<byte>)
      requires Valid()
      modifies this, w
      ensures Valid()
      ensures w.data == old(w.data) + NamedBytes(name, TDouble(bits))
      ensures hierarchy == old(hierarchy) && listSizeStack == old(listSizeStack)
      ensures base == old(base) && (closed, frames) == AddEntry(old(closed), old(frames), Entry(name, TDouble(bits)))
    {
      EmitTagHeader(TagDouble, name);
      w.WriteDouble(bits);
      LeafNamed(name, TDouble(bits));
      Record(Entry(name, TDouble(bits)));
    }

    /** `PushByteArray`: the length as an `int32`, then the bytes. */
    method PushByteArray(d: seq<byte>, name: seq<byte>)
      requires Valid()
      modifies this, w
      ensures Valid()
      ensures w.data == old(w.data) + NamedBytes(name, TByteArray(d))
      ensures hierarchy == old(hierarchy) && listSizeStack == old(listSizeStack)
      ensures base == old(base) && (closed, frames) == AddEntry(old(closed), old(frames), Entry(name, TByteArray(d)))
    {
      EmitTagHeader(TagByteArray, name);
      WrapEncodes(|d|, 4);
      assert Pow256(4) == 0x1_0000_0000;
      w.WriteInt(Wrap(|d|, 4));
      w.WriteBytes(d);
      LeafNamed(name, TByteArray(d));
      Record(Entry(name, TByteArray(d)));
    }

    /** The element loop of `PushIntArray`. */
    method WriteInts(xs: seq<int32>)
      modifies w
      ensures w.data == old(w.data) + NumbersBytes(xs, 4)
    {
      ghost var d0 := w.data;
      var i := 0;
      while i < |xs|
        invariant 0 <= i <= |xs|
        invariant w.data == d0 + NumbersBytes(xs[..i], 4)
      {
        w.WriteInt(xs[i]);
        NumbersStep(xs, i, 4);
        Append3(d0, NumbersBytes(xs[..i], 4), BigEndian(xs[i], 4));
        i := i + 1;
      }
      assert xs[..i] == xs;
    }

    /** `PushIntArray`: the length as an `int32`, then each number in turn. */
    method PushIntArray(xs: seq<int32>, name: seq<byte>)
      requires Valid()
      modifies this, w
      ensures Valid()
      ensures w.data == old(w.data) + NamedBytes(name, TIntArray(xs))
      ensures hierarchy == old(hierarchy) && listSizeStack == old(listSizeStack)
      ensures base == old(base) && (closed, frames) == AddEntry(old(closed), old(frames), Entry(name, TIntArray(xs)))
    {
      ghost var before := w.data;
      EmitTagHeader(TagIntArray, name);
      ghost var header := w.data;
      WrapEncodes(|xs|, 4);
      assert Pow256(4) == 0x1_0000_0000;
      w.WriteInt(Wrap(|xs|, 4));
      WriteInts(xs);
      Appended(before, TagHeader(TagIntArray, name), BigEndian(|xs|, 4), NumbersBytes(xs, 4), w.data);
      LeafNamed(name, TIntArray(xs));
      Record(Entry(name, TIntArray(xs)));
    }

    /** The element loop of `PushLongArray`. */
    method WriteLongs(xs: seq<int64>)
      modifies w
      ensures w.data == old(w.data) + NumbersBytes(xs, 8)
    {
      ghost var d0 := w.data;
      var i := 0;
      while i < |xs|
        invariant 0 <= i <= |xs|
        invariant w.data == d0 + NumbersBytes(xs[..i], 8)
      {
        w.WriteLong(xs[i]);
        NumbersStep(xs, i, 8);
        Append3(d0, NumbersBytes(xs[..i], 8), BigEndian(xs[i], 8));
        i := i + 1;
      }
      assert xs[..i] == xs;
    }

    /** `PushLongArray`: the length as an `int32`, then each number in turn. */
    method PushLongArray(xs: seq<int64>, name: seq<byte>)
      requires Valid()
      modifies this, w
      ensures Valid()
      ensures w.data == old(w.data) + NamedBytes(name, TLongArray(xs))
      ensures hierarchy == old(hierarchy) && listSizeStack == old(listSizeStack)
      ensures base == old(base) && (closed, frames) == AddEntry(old(closed), old(frames), Entry(name, TLongArray(xs)))
    {
      ghost var before := w.data;
      EmitTagHeader(TagLongArray, name);
      ghost var header := w.data;
      WrapEncodes(|xs|, 4);
      assert Pow256(4) == 0x1_0000_0000;
      w.WriteInt(Wrap(|xs|, 4));
      WriteLongs(xs);
      Appended(before, TagHeader(TagLongArray, name), BigEndian(|xs|, 4), NumbersBytes(xs, 8), w.data);
      LeafNamed(name, TLongArray(xs));
      Record(Entry(name, TLongArray(xs)));
    }

    method PushString(val: seq<byte>, name: seq<byte>)
      requires Valid()
      modifies this, w
      ensures Valid()
      ensures w.data == old(w.data) + NamedBytes(name, TString(val))
      ensures hierarchy == old(hierarchy) && listSizeStack == old(listSizeStack)
      ensures base == old(base) && (closed, frames) == AddEntry(old(closed), old(frames), Entry(name, TString(val)))
    {
      EmitTagHeader(TagString, name);
      EmitString(val);
      LeafNamed(name, TString(val));
      Record(Entry(name, TString(val)));
    }

    /** `StartCompound`: the compound's header, then it becomes the
      * innermost open tag. */
    method StartCompound(name: seq<byte>)
      requires Valid()
      modifies this, w
      ensures Valid()
      ensures w.data == old(w.data) + TagHeader(TagCompound, name)
      ensures hierarchy == old(hierarchy) + [TagCompound] && listSizeStack == old(listSizeStack)
      ensures base == old(base) && closed == old(closed) && frames == old(frames) + [Frame(name, [])]
    {
      EmitTagHeader(TagCompound, name);
      hierarchy := hierarchy + [TagCompound];
      frames := frames + [Frame(name, [])];
      assert frames[..|frames| - 1] == old(frames);
    }

    /** `EndCompound`: a TAG_End byte, then the innermost compound is popped.
      * With no compound open, the byte is still written and the slice
      * expression panics. */
    method EndCompound() returns (r: Result<()>)
      requires Valid()
      modifies this, w
      ensures w.data == old(w.data) + [TagEnd]
      ensures r.Err? <==> old(hierarchy) == []
      ensures r.Ok? ==> Valid() && base == old(base)
      ensures r.Ok? ==> hierarchy == old(hierarchy)[..|old(hierarchy)| - 1]
      ensures r.Ok? ==> var f := old(frames)[|old(frames)| - 1];
        (closed, frames) == AddEntry(old(closed), old(frames)[..|old(frames)| - 1], Entry(f.name, TCompound(f.entries)))
    {
      w.WriteByte(TagEnd);
      if |hierarchy| == 0 {
        return Err("runtime error: slice bounds out of range [:-1]");
      }
      hierarchy := hierarchy[..|hierarchy| - 1];
      ghost var f := frames[|frames| - 1];
      ghost var outer := frames[..|frames| - 1];
      CloseData(w.data, base, closed, frames);
      assert AllCompounds(hierarchy);
      frames := outer;
      Record(Entry(f.name, TCompound(f.entries)));
      r := Ok(());
    }
  }

  /** What `PushShort` writes is a TAG_Byte tag holding the short's high
    * byte, followed by a stray byte holding its low byte. */
  lemma PushShortIsByte(val: int16, name: seq<byte>)
    ensures TagHeader(TagByte, name) + BigEndian(val, 2)
      == NamedBytes(name, TByte(BigEndian(val, 2)[0])) + [BigEndian(val, 2)[1]]
  {
  }

  /** The compound `{s: short 256}` as the writer emits it with `PushShort`
    * reads back as `{s: byte 1}`, and the decoder stops one byte short of
    * the end: the low byte 0 is taken for the compound's TAG_End. */
  lemma PushShortMisread()
    ensures var s: seq<byte> := [0x73];
      var written := TagHeader(TagCompound, []) + TagHeader(TagByte, s) + BigEndian(256, 2) + [TagEnd];
      |written| == 10
      && Decode(written) == Ok((([], TCompound([Entry(s, TByte(1))])), 9))
  {
    var s: seq<byte> := [0x73];
    var a, b := TagHeader(TagCompound, []), TagHeader(TagByte, s);
    var written := a + b + BigEndian(256, 2) + [TagEnd];
    assert BigEndian(256, 2) == [1, 0];
    assert written[0..3] == a;
    assert written[3..7] == b;
    NbtLaws.TagRoundTrip(written, 0, TagCompound, []);
    NbtLaws.TagRoundTrip(written, 3, TagByte, s);
    assert written[7] == 1 && written[8] == TagEnd;
    assert ValueAt(written, 7, TagByte) == Ok((TByte(1), 8));
    assert TagAt(written, 8) == Ok(((TagEnd, []), 9));
    assert EntriesAt(written, 8) == Ok(([], 9));
    assert [Entry(s, TByte(1))] + [] == [Entry(s, TByte(1))];
    assert EntriesAt(written, 3) == Ok(([Entry(s, TByte(1))], 9));
  }

  /** With `PushShortFixed`, the same compound reads back as written. */
  lemma PushShortFixedReads()
    ensures var s: seq<byte> := [0x73];
      var written := TagHeader(TagCompound, []) + NamedBytes(s, TShort(256)) + [TagEnd];
      Decode(written) == Ok((([], TCompound([Entry(s, TShort(256))])), |written| as nat))
  {
    var s: seq<byte> := [0x73];
    var t := TCompound([Entry(s, TShort(256))]);
    assert EntriesWellFormed([Entry(s, TShort(256))]) by {
      assert Pow256(2) == 0x1_0000;
      assert [Entry(s, TShort(256))][1..] == [];
      assert WellFormed(TShort(256));
      assert EntriesWellFormed([]);
    }
    NbtLaws.DecodeRoundTrip([], t, []);
    assert NamedBytes([], t) == TagHeader(TagCompound, []) + NamedBytes(s, TShort(256)) + [TagEnd] by {
      assert EntriesBytes([Entry(s, TShort(256))]) == NamedBytes(s, TShort(256)) + EntriesBytes([]);
    }
    assert NamedBytes([], t) + [] == NamedBytes([], t);
  }
}
