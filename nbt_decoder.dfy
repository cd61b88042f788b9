/** The NBT decoder's byte-level reads (`NbtDecoder` in minecraft/nbt.go)
  * over an in-memory input (`bytes.Reader`): every method consumes bytes
  * from `off` and is proved to agree with the decoding function of module
  * `Nbt` that specifies it. */
module NbtDecoders {
  import opened Bytes
  import opened Wrappers
  import opened Nbt
  import Readers

  /** The offsets alone of a run of numbers read. */
  function EndOf(r: Result<(seq<int>, nat)>): Result<nat>
  {
    match r
    case Err(e) => Err(e)
    case Ok((_, end)) => Ok(end)
  }

  /** One step of reading `n` numbers. */
  lemma NumbersEndStep(data: seq<byte>, off: nat, n: nat, k: nat)
    requires off <= |data| && 0 < k && 0 < n
    ensures IntAt(data, off, k).Err? ==>
      EndOf(NumbersAt(data, off, n, k)) == Err(IntAt(data, off, k).error)
    ensures IntAt(data, off, k).Ok? ==>
      EndOf(NumbersAt(data, off, n, k)) == EndOf(NumbersAt(data, IntAt(data, off, k).value.1, n - 1, k))
  {
  }

  /** Skipping an int or long array: its `int32` length, then that many
    * numbers, none for a negative length. */
  lemma SkipNumbersAt(data: seq<byte>, off: nat, k: nat)
    requires off <= |data| && (k == 4 || k == 8)
    ensures IntAt(data, off, 4).Err? ==>
      SkipAt(data, off, if k == 4 then TagIntArray else TagLongArray) == Err(IntAt(data, off, 4).error)
    ensures IntAt(data, off, 4).Ok? ==>
      var (n, next) := IntAt(data, off, 4).value;
      SkipAt(data, off, if k == 4 then TagIntArray else TagLongArray) == EndOf(NumbersAt(data, next, if n < 0 then 0 else n, k))
  {
  }

  /** How a skip ends: at the offset `SkipAt` gives, or with its error and
    * the input consumed no further back than where it started. */
  ghost predicate Skipped(spec: Result<nat>, r: Result<()>, before: nat, after: nat)
  {
    match spec
    case Ok(end) => r.Ok? && after == end
    case Err(e) => r == Err(e) && before <= after
  }

  class NbtDecoder {
    const data: seq<byte>
    var off: nat

    /** `NewNbtDecoder` over `bytes.NewReader(data)`. */
    constructor (data: seq<byte>)
      ensures this.data == data && off == 0
    {
      this.data := data;
      off := 0;
    }

    /** `ReadByte` of the underlying reader. */
    method ReadByte() returns (r: Result<byte>)
      requires off <= |data|
      modifies this
      ensures off <= |data|
      ensures Readers.Follows(ByteAt(data, old(off)), r, old(off), off)
    {
      if off < |data| {
        r := Ok(data[off]);
        off := off + 1;
      } else {
        r := Err(EOF);
      }
    }

    /** `io.ReadFull` of `k` bytes: on a short input it consumes what is
      * left before failing. */
    method ReadFull(k: nat) returns (r: Result<seq<byte>>)
      requires off <= |data|
      modifies this
      ensures off <= |data|
      ensures Readers.Follows(FullAt(data, old(off), k), r, old(off), off)
    {
      if off + k <= |data| {
        r := Ok(data[off..off + k]);
        off := off + k;
      } else {
        r := Err(if off == |data| then EOF else UnexpectedEOF);
        off := |data|;
      }
    }

    /** `readInt16`, `readInt32` and `readInt64` (`k` = 2, 4, 8): the bytes
      * shifted into place and read as two's complement. */
    method ReadInt(k: nat) returns (r: Result<int>)
      requires off <= |data| && 0 < k
      modifies this
      ensures off <= |data|
      ensures Readers.Follows(IntAt(data, old(off), k), r, old(off), off)
    {
      var b := ReadFull(k);
      if b.Err? {
        return Err(b.error);
      }
      r := Ok(Signed(Unsigned(b.value), k));
    }

    /** `readString`: a 16-bit length, refused when negative, then the bytes
      * (none are read for length 0). */
    method ReadString() returns (r: Result<seq<byte>>)
      requires off <= |data|
      modifies this
      ensures off <= |data|
      ensures Readers.Follows(StringAt(data, old(off)), r, old(off), off)
    {
      var n := ReadInt(2);
      if n.Err? {
        return Err(n.error);
      }
      if n.value < 0 {
        return Err(NegativeString);
      }
      if n.value > 0 {
        var s := ReadFull(n.value);
        if s.Err? {
          return Err(s.error);
        }
        r := Ok(s.value);
      } else {
        r := Ok([]);
      }
    }

    /** `readTag`: the type byte, then a name unless it is TAG_End. */
    method ReadTag() returns (r: Result<(byte, seq<byte>)>)
      requires off <= |data|
      modifies this
      ensures off <= |data|
      ensures Readers.Follows(TagAt(data, old(off)), r, old(off), off)
    {
      var t := ReadByte();
      if t.Err? {
        return Err(t.error);
      }
      if t.value == TagEnd {
        return Ok((TagEnd, []));
      }
      var name := ReadString();
      if name.Err? {
        return Err(name.error);
      }
      r := Ok((t.value, name.value));
    }

    /** `rawRead`: skips one payload of type `t`. */
    method RawRead(t: byte) returns (r: Result<()>)
      requires off <= |data|
      modifies this
      ensures off <= |data|
      ensures Skipped(SkipAt(data, old(off), t), r, old(off), off)
      decreases |data| - off
    {
      if t == TagByte {
        var b := ReadByte();
        r := if b.Err? then Err(b.error) else Ok(());
      } else if t == TagString {
        var s := ReadString();
        r := if s.Err? then Err(s.error) else Ok(());
      } else if t == TagShort {
        var b := ReadFull(2);
        r := if b.Err? then Err(b.error) else Ok(());
      } else if t == TagInt || t == TagFloat {
        var b := ReadFull(4);
        r := if b.Err? then Err(b.error) else Ok(());
      } else if t == TagLong || t == TagDouble {
        var b := ReadFull(8);
        r := if b.Err? then Err(b.error) else Ok(());
      } else if t == TagByteArray {
        r := SkipByteArray();
      } else if t == TagIntArray || t == TagLongArray {
        r := SkipNumbers(if t == TagIntArray then 4 else 8);
        assert t == TagIntArray ==> (if t == TagIntArray then 4 else 8) == 4;
      } else if t == TagList {
        r := SkipList();
      } else if t == TagCompound {
        r := SkipCompound();
      } else {
        r := Err("unknown to read 0x" + Hex(t));
      }
    }

    /** The byte array case: an `int32` length, then `io.CopyN` of that many
      * bytes, which copies nothing for a length of zero or less. */
    method SkipByteArray() returns (r: Result<()>)
      requires off <= |data|
      modifies this
      ensures off <= |data|
      ensures Skipped(SkipAt(data, old(off), TagByteArray), r, old(off), off)
    {
      var n := ReadInt(4);
      if n.Err? {
        return Err(n.error);
      }
      if n.value <= 0 {
        return Ok(());
      }
      if off + n.value <= |data| {
        off := off + n.value;
        r := Ok(());
      } else {
        off := |data|;
        r := Err(EOF);
      }
    }

    /** The int and long array cases: an `int32` length, then that many
      * numbers of `k` bytes, each read with `readInt32` or `readInt64`. */
    method SkipNumbers(k: nat) returns (r: Result<()>)
      requires off <= |data| && (k == 4 || k == 8)
      modifies this
      ensures off <= |data|
      ensures Skipped(SkipAt(data, old(off), if k == 4 then TagIntArray else TagLongArray), r, old(off), off)
    {
      SkipNumbersAt(data, off, k);
      var n := ReadInt(4);
      if n.Err? {
        return Err(n.error);
      }
      r := SkipEach(n.value, k);
    }

    /** The loop of the array case: `n` numbers of `k` bytes read and
      * dropped, none for a negative `n`. */
    method SkipEach(n: int, k: nat) returns (r: Result<()>)
      requires off <= |data| && (k == 4 || k == 8)
      modifies this
      ensures off <= |data|
      ensures Skipped(EndOf(NumbersAt(data, old(off), if n < 0 then 0 else n, k)), r, old(off), off)
    {
      ghost var start := off;
      ghost var count: nat := if n < 0 then 0 else n;
      var i := 0;
      while i < n
        invariant 0 <= i <= count && start <= off <= |data|
        invariant EndOf(NumbersAt(data, off, count - i, k)) == EndOf(NumbersAt(data, start, count, k))
        decreases count - i
      {
        NumbersEndStep(data, off, count - i, k);
        var x := ReadInt(k);
        if x.Err? {
          return Err(x.error);
        }
        i := i + 1;
      }
      r := Ok(());
    }

    /** The list case: the element type, an `int32` length, then that many
      * payloads skipped one by one. */
    method SkipList() returns (r: Result<()>)
      requires off <= |data|
      modifies this
      ensures off <= |data|
      ensures Skipped(SkipAt(data, old(off), TagList), r, old(off), off)
      decreases |data| - off, 0
    {
      var et := ReadByte();
      if et.Err? {
        return Err(et.error);
      }
      var n := ReadInt(4);
      if n.Err? {
        return Err(n.error);
      }
      ghost var start := off;
      ghost var count: nat := if n.value < 0 then 0 else n.value;
      var i := 0;
      while i < n.value
        invariant 0 <= i <= count && old(off) < start <= off <= |data|
        invariant SkipItemsAt(data, off, et.value, count - i) == SkipItemsAt(data, start, et.value, count)
        decreases count - i
      {
        var e := RawRead(et.value);
        if e.Err? {
          return e;
        }
        i := i + 1;
      }
      r := Ok(());
    }

    /** The compound case: tagged payloads until a TAG_End. */
    method SkipCompound() returns (r: Result<()>)
      requires off <= |data|
      modifies this
      ensures off <= |data|
      ensures Skipped(SkipAt(data, old(off), TagCompound), r, old(off), off)
      decreases |data| - off, 0
    {
      while true
        invariant old(off) <= off <= |data|
        invariant SkipEntriesAt(data, off) == SkipEntriesAt(data, old(off))
        decreases |data| - off
      {
        var tag := ReadTag();
        if tag.Err? {
          return Err(tag.error);
        }
        if tag.value.0 == TagEnd {
          return Ok(());
        }
        var e := RawRead(tag.value.0);
        if e.Err? {
          return e;
        }
      }
    }
  }
}
