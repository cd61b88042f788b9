/** The packet writer (minecraft/writer.go): a growing byte buffer to which
  * every `Write*` method appends the wire encoding of one value. */
module Writers {
  import opened Bytes
  import opened Positions
  import opened Wrappers

  /** The varint encoding of a non-negative number: 7-bit groups, least
    * significant first, with the high bit set on every byte but the last. */
  function VarintBytes(v: nat): seq<byte>
    decreases v
  {
    if v < 128 then [v] else [v % 128 + 128] + VarintBytes(v / 128)
  }

  function BooleanBytes(b: bool): seq<byte>
  {
    [if b then 1 else 0]
  }

  /** A string or byte blob prefixed with its length as a varint. */
  function StringBytes(s: seq<byte>): seq<byte>
    requires |s| < 0x8000_0000
  {
    VarintBytes(|s|) + s
  }

  function PositionBytes(p: Position): seq<byte>
  {
    BigEndian(Pack(p), 8)
  }

  /** A varint is self-delimiting: every byte but the last has its high bit
    * set, and the last one does not. */
  lemma {:induction false} VarintFraming(v: nat)
    ensures |VarintBytes(v)| >= 1
    ensures VarintBytes(v)[|VarintBytes(v)| - 1] < 128
    ensures forall i :: 0 <= i < |VarintBytes(v)| - 1 ==> VarintBytes(v)[i] >= 128
    decreases v
  {
    if v >= 128 {
      VarintFraming(v / 128);
    }
  }

  /** A number below `2^(7k)` takes at most `k` bytes, and one byte exactly
    * when it is below 128. */
  lemma {:induction false} VarintLength(v: nat, k: nat)
    requires 1 <= k && v < Pow2(7 * k)
    ensures 1 <= |VarintBytes(v)| <= k
    ensures |VarintBytes(v)| == 1 <==> v < 128
    decreases k
  {
    if v >= 128 {
      assert Pow2(7) == 128;
      assert Pow2(7 * k) == 128 * Pow2(7 * (k - 1)) by { Pow2Add(7, 7 * (k - 1)); }
      VarintLength(v / 128, k - 1);
    }
  }

  lemma {:induction false} Pow2Add(a: nat, b: nat)
    ensures Pow2(a + b) == Pow2(a) * Pow2(b)
    decreases a
  {
    if a > 0 {
      Pow2Add(a - 1, b);
    } else {
      assert Pow2(0) == 1;
    }
  }

  lemma Pow2Of16()
    ensures Pow2(16) == 0x1_0000
  {
    Pow2Add(8, 8);
    assert Pow2(8) == 0x100;
  }

  lemma Pow2Of32()
    ensures Pow2(32) == 0x1_0000_0000
  {
    Pow2Of16();
    Pow2Add(16, 16);
  }

  lemma Pow2Of64()
    ensures Pow2(63) == 0x8000_0000_0000_0000 && Pow2(64) == 0x1_0000_0000_0000_0000
  {
    Pow2Of32();
    assert Pow2(32) == 2 * Pow2(31);
    Pow2Add(31, 32);
    assert Pow2(64) == 2 * Pow2(63);
  }

  /** The exact varint length of a 16-bit number. */
  lemma VarintLength16(v: nat)
    requires v < 0x1_0000
    ensures |VarintBytes(v)| == if v < 128 then 1 else if v < 0x4000 then 2 else 3
  {
    if v >= 128 {
      if v >= 0x4000 {
        assert (v / 128) / 128 < 128;
      }
    }
  }

  /** The loop of `WriteVarint` as written, run for at most `fuel`
    * iterations: each one emits the low seven bits of `v`, with the
    * continuation bit when the rest is not zero, and shifts `v` right
    * arithmetically (`v >> 7`, the floor of `v / 128`); it stops once the
    * rest is zero. `None` when the fuel runs out first. */
  function VarintLoop(v: int, fuel: nat): Option<seq<byte>>
    decreases fuel
  {
    if fuel == 0 then None
    else
      var rest := v / 128;
      var temp := v % 128 + (if rest != 0 then 128 else 0);
      if rest == 0 then Some([temp])
      else
        match VarintLoop(rest, fuel - 1)
        case None => None
        case Some(t) => Some([temp] + t)
  }

  /** A non-negative value leaves the loop after one iteration per byte of
    * its varint, having written that varint. */
  lemma {:induction false} VarintLoopNonNegative(v: nat, fuel: nat)
    requires |VarintBytes(v)| <= fuel
    ensures VarintLoop(v, fuel) == Some(VarintBytes(v))
    decreases v
  {
    if v >= 128 {
      VarintLoopNonNegative(v / 128, fuel - 1);
    }
  }

  /** A negative value never leaves the loop: the arithmetic shift keeps it
    * negative, so it never becomes zero, however many iterations run. */
  lemma {:induction false} VarintLoopNegative(v: int, fuel: nat)
    requires v < 0
    ensures VarintLoop(v, fuel) == None
    decreases fuel
  {
    if fuel > 0 {
      VarintLoopNegative(v / 128, fuel - 1);
    }
  }

  class Writer {
    var data: seq<byte>

    constructor ()
      ensures data == []
    {
      data := [];
    }

    /** `Bytes`: everything written so far. */
    method Bytes() returns (r: seq<byte>)
      ensures r == data
    {
      r := data;
    }

    method WriteBytes(b: seq<byte>)
      modifies this
      ensures data == old(data) + b
    {
      data := data + b;
    }

    method WriteBoolean(val: bool)
      modifies this
      ensures data == old(data) + BooleanBytes(val)
    {
      if val {
        WriteByte(0x01);
      } else {
        WriteByte(0x00);
      }
    }

    method WriteByte(val: byte)
      modifies this
      ensures data == old(data) + [val]
    {
      data := data + [val];
    }

    method WriteShort(val: int16)
      modifies this
      ensures data == old(data) + BigEndian(val, 2)
    {
      data := data + BigEndian(val, 2);
    }

    method WriteUShort(val: uint16)
      modifies this
      ensures data == old(data) + BigEndian(val, 2)
    {
      data := data + BigEndian(val, 2);
    }

    method WriteInt(val: int32)
      modifies this
      ensures data == old(data) + BigEndian(val, 4)
    {
      data := data + BigEndian(val, 4);
    }

    method WriteUInt(val: uint32)
      modifies this
      ensures data == old(data) + BigEndian(val, 4)
    {
      data := data + BigEndian(val, 4);
    }

    method WriteLong(val: int64)
      modifies this
      ensures data == old(data) + BigEndian(val, 8)
    {
      data := data + BigEndian(val, 8);
    }

    method WriteULong(val: uint64)
      modifies this
      ensures data == old(data) + BigEndian(val, 8)
    {
      data := data + BigEndian(val, 8);
    }

    /** A `float32` is written as its IEEE 754 bit pattern, given here as `bits`. */
    method WriteFloat(bits: uint32)
      modifies this
      ensures data == old(data) + BigEndian(bits, 4)
    {
      data := data + BigEndian(bits, 4);
    }

    /** A `float64` is written as its IEEE 754 bit pattern, given here as `bits`. */
    method WriteDouble(bits: uint64)
      modifies this
      ensures data == old(data) + BigEndian(bits, 8)
    {
      data := data + BigEndian(bits, 8);
    }

    method WriteString(val: seq<byte>)
      requires |val| < 0x8000_0000
      modifies this
      ensures data == old(data) + StringBytes(val)
    {
      WriteVarint(|val|);
      data := data + val;
    }

    /** `WriteChat` and `WriteJson`: the JSON text, given here as `json`,
      * prefixed by its length. */
    method WriteChat(json: seq<byte>)
      requires |json| < 0x8000_0000
      modifies this
      ensures data == old(data) + StringBytes(json)
    {
      WriteVarint(|json|);
      WriteBytes(json);
    }

    /** The loop shifts `val` right by 7 until it is zero; with Go's
      * arithmetic shift a negative value never reaches zero, so the source
      * only terminates for `val >= 0`. */
    method WriteVarint(val: int32)
      requires val >= 0
      modifies this
      ensures data == old(data) + VarintBytes(val)
    {
      var v: int := val;
      while true
        invariant 0 <= v
        invariant data + VarintBytes(v) == old(data) + VarintBytes(val)
        decreases v
      {
        var temp := v % 128;
        var rest := v / 128;
        if rest != 0 {
          temp := temp + 128;
        }
        data := data + [temp];
        v := rest;
        if v == 0 {
          break;
        }
      }
    }

    /** `WriteVarint` as evidently intended for every `int32`: the loop
      * over the 32-bit pattern of `val`, shifted logically, so that a
      * negative number takes five bytes and `ReadVarint` reads it back. */
    method WriteVarintFixed(val: int32)
      modifies this
      ensures data == old(data) + VarintBytes(val % 0x1_0000_0000)
    {
      var v: int := val % 0x1_0000_0000;
      while true
        invariant 0 <= v
        invariant data + VarintBytes(v) == old(data) + VarintBytes(val % 0x1_0000_0000)
        decreases v
      {
        var temp := v % 128;
        var rest := v / 128;
        if rest != 0 {
          temp := temp + 128;
        }
        data := data + [temp];
        v := rest;
        if v == 0 {
          break;
        }
      }
    }

    method WriteVarlong(val: int64)
      requires val >= 0
      modifies this
      ensures data == old(data) + VarintBytes(val)
    {
      var v: int := val;
      while true
        invariant 0 <= v
        invariant data + VarintBytes(v) == old(data) + VarintBytes(val)
        decreases v
      {
        var temp := v % 128;
        var rest := v / 128;
        if rest != 0 {
          temp := temp + 128;
        }
        data := data + [temp];
        v := rest;
        if v == 0 {
          break;
        }
      }
    }

    method WritePosition(pos: Position)
      modifies this
      ensures data == old(data) + PositionBytes(pos)
    {
      WriteULong(Pack(pos));
    }

    method WriteAngle(angle: byte)
      modifies this
      ensures data == old(data) + [angle]
    {
      WriteByte(angle);
    }

    /** A UUID is written as its 16 raw bytes. */
    method WriteUUID(uuid: seq<byte>)
      requires |uuid| == 16
      modifies this
      ensures data == old(data) + uuid
    {
      WriteBytes(uuid);
    }

    /** `WriteUUIDAsString`: the UUID's canonical text, given here as `text`,
      * prefixed by its length. */
    method WriteUUIDAsString(text: seq<byte>)
      requires |text| == 36
      modifies this
      ensures data == old(data) + StringBytes(text)
    {
      WriteVarint(|text|);
      WriteBytes(text);
    }
  }
}
