/** Block positions and their packed 64-bit wire form (minecraft/types.go).
  *
  * The packed layout is X in bits 38..63, Y in bits 26..37 and Z in bits
  * 0..25. The three fields never overlap, so the source's bitwise `|` of the
  * shifted fields is their sum, and `& mask` of a Go `int` is Dafny's
  * Euclidean `%` by the field's size. */
module Positions {
  import opened Bytes

  datatype Position = Position(x: int, y: int, z: int)

  const XZ_SIZE: int := 0x400_0000      // 2^26
  const Y_SIZE: int := 0x1000           // 2^12
  const X_SHIFT: int := 0x40_0000_0000  // 2^38
  const Y_SHIFT: int := 0x400_0000      // 2^26

  /** `Pack`: the 64-bit value sent on the wire for a position. */
  function Pack(p: Position): (r: uint64)
    ensures r / X_SHIFT == p.x % XZ_SIZE
    ensures (r / Y_SHIFT) % Y_SIZE == p.y % Y_SIZE
    ensures r % Y_SHIFT == p.z % XZ_SIZE
  {
    (p.x % XZ_SIZE) * X_SHIFT + (p.y % Y_SIZE) * Y_SHIFT + p.z % XZ_SIZE
  }

  /** `ParsePosition` as written: a raw field is taken as negative only when it
    * is strictly above half the field's range. */
  function ParsePosition(v: uint64): Position
  {
    var x := (v / X_SHIFT) % XZ_SIZE;
    var y := (v / Y_SHIFT) % Y_SIZE;
    var z := v % XZ_SIZE;
    Position(
      if x > 33554432 then x - 67108864 else x,
      if y > 2048 then y - 4096 else y,
      if z > 33554432 then z - 67108864 else z)
  }

  /** The coordinates that `ParsePosition` can return: a 26-bit (12-bit for Y)
    * range shifted up by one from two's complement. */
  predicate InParsedRange(p: Position)
  {
    -33554432 < p.x <= 33554432 && -2048 < p.y <= 2048 && -33554432 < p.z <= 33554432
  }

  /** The signed ranges of the packed fields in two's complement. */
  predicate InPackedRange(p: Position)
  {
    -33554432 <= p.x < 33554432 && -2048 <= p.y < 2048 && -33554432 <= p.z < 33554432
  }

  lemma Fields(v: uint64)
    ensures v == (v / X_SHIFT) * X_SHIFT + ((v / Y_SHIFT) % Y_SIZE) * Y_SHIFT + v % XZ_SIZE
    ensures v / X_SHIFT < XZ_SIZE
  {
  }

  /** Packing a parsed value gives back every 64-bit value. */
  lemma PackOfParse(v: uint64)
    ensures Pack(ParsePosition(v)) == v
  {
    Fields(v);
    FieldMod((v / X_SHIFT) % XZ_SIZE, XZ_SIZE);
    FieldMod((v / Y_SHIFT) % Y_SIZE, Y_SIZE);
    FieldMod(v % XZ_SIZE, XZ_SIZE);
  }

  /** A raw field and its value shifted down by the field's size have the
    * same low bits. */
  lemma FieldMod(f: int, m: int)
    requires 0 <= f < m
    ensures f % m == f && (f - m) % m == f
  {
    DivModUnique(f, m, 0, f);
    DivModUnique(f - m, m, -1, f);
  }

  /** Parsing a packed position gives it back exactly when its coordinates are
    * in the range the parser produces. */
  lemma ParseOfPack(p: Position)
    ensures ParsePosition(Pack(p)) == p <==> InParsedRange(p)
  {
    var v := Pack(p);
    assert v / X_SHIFT == p.x % XZ_SIZE;
    assert (v / Y_SHIFT) % Y_SIZE == p.y % Y_SIZE;
    assert v % XZ_SIZE == p.z % XZ_SIZE;
  }

  /** The as-written parser does not invert `Pack` at the lowest X. */
  lemma ParsePositionMissesLowest()
    ensures ParsePosition(Pack(Position(-33554432, 0, 0))) == Position(33554432, 0, 0)
  {
    ParseOfPack(Position(-33554432, 0, 0));
  }

  /** The two's complement reading of the packed fields. */
  function ParsePositionFixed(v: uint64): Position
  {
    var x := (v / X_SHIFT) % XZ_SIZE;
    var y := (v / Y_SHIFT) % Y_SIZE;
    var z := v % XZ_SIZE;
    Position(
      if x >= 33554432 then x - 67108864 else x,
      if y >= 2048 then y - 4096 else y,
      if z >= 33554432 then z - 67108864 else z)
  }

  lemma PackOfParseFixed(v: uint64)
    ensures Pack(ParsePositionFixed(v)) == v
  {
    Fields(v);
    FieldMod((v / X_SHIFT) % XZ_SIZE, XZ_SIZE);
    FieldMod((v / Y_SHIFT) % Y_SIZE, Y_SIZE);
    FieldMod(v % XZ_SIZE, XZ_SIZE);
  }

  lemma ParseFixedOfPack(p: Position)
    ensures ParsePositionFixed(Pack(p)) == p <==> InPackedRange(p)
  {
    var v := Pack(p);
    assert v / X_SHIFT == p.x % XZ_SIZE;
    assert (v / Y_SHIFT) % Y_SIZE == p.y % Y_SIZE;
    assert v % XZ_SIZE == p.z % XZ_SIZE;
  }
}
