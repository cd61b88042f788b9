/** The layout of a chunk column (minecraft/chunk/chunk.go and
  * constants.go): where a block, a biome or a light value lives, how light
  * is packed two values to a byte, and the bytes of the Chunk Data and
  * Update Light packets, as functions of the chunk's contents. */
module ChunkFormats {
  import opened Bytes
  import opened Wrappers
  import opened Writers
  import opened Common
  import opened Palettes
  import opened Sections
  import Nbt

  const NumSections: nat := 16
  const NumLightSections: nat := 18
  const LightVolume: nat := 2048
  /** The largest number of bits per block sent with a section palette. */
  const MaxBitsPerBlock: nat := 8
  /** The bits per block of the global palette. */
  const GlobalBitsPerBlock: nat := 14
  const BiomesLength: nat := 1024

  /** `getSectionIndex`: `y >> 4`, the floor of `y / 16`. */
  function SectionIndex(y: int): (r: int)
    ensures 16 * r <= y < 16 * r + 16
  {
    y / 16
  }

  /** `getLightSection`: one light section below the lowest block section
    * and one above the highest. */
  function LightSection(y: int): (r: int)
    ensures 0 <= y < 256 ==> 1 <= r <= 16
    ensures 0 <= r < NumLightSections <==> -16 <= y < 272
  {
    (y / 16) + 1
  }

  predicate InColumn(x: int, z: int)
  {
    0 <= x < 16 && 0 <= z < 16
  }

  /** `getSectionBlockIndex`: `(y & 0xf) << 8 | z << 4 | x`. For a column
    * position the three fields do not overlap, so the `|` is a sum, and the
    * index takes the position apart again: a bijection onto `0 .. 4095`. */
  function SectionBlockIndex(x: int, y: int, z: int): (r: nat)
    requires InColumn(x, z)
    ensures r < SectionVolume
    ensures r % 16 == x && (r / 16) % 16 == z && r / 256 == y % 16
  {
    var r := (y % 16) * 256 + z * 16 + x;
    Fields(r, y % 16, z, x);
    r
  }

  /** A number made of three 4-bit fields, taken apart again. */
  lemma Fields(r: int, a: int, b: int, c: int)
    requires 0 <= a < 16 && 0 <= b < 16 && 0 <= c < 16 && r == a * 256 + b * 16 + c
    ensures 0 <= r < 4096 && r % 16 == c && (r / 16) % 16 == b && r / 256 == a
  {
    DivModUnique(r, 16, a * 16 + b, c);
    DivModUnique(r / 16, 16, a, b);
    DivModUnique(r, 256, a, b * 16 + c);
  }

  /** Two positions of a section share an index only if they are equal. */
  lemma SectionBlockIndexInjective(x: int, y: int, z: int, x': int, y': int, z': int)
    requires InColumn(x, z) && InColumn(x', z') && SectionIndex(y) == SectionIndex(y')
    requires SectionBlockIndex(x, y, z) == SectionBlockIndex(x', y', z')
    ensures x == x' && y == y' && z == z'
  {
  }

  /** `getBiomeIndex`: one biome for each 4x4x4 cube, the y field above
    * the z field above the x field (again a sum of disjoint fields). */
  function BiomeIndex(x: int, y: int, z: int): (r: nat)
    ensures r < BiomesLength
    ensures r % 4 == (x / 4) % 4 && (r / 4) % 4 == (z / 4) % 4 && r / 16 == (y / 4) % 64
  {
    var a, b, c := (y / 4) % 64, (z / 4) % 4, (x / 4) % 4;
    var r := a * 16 + b * 4 + c;
    DivModUnique(r, 4, a * 4 + b, c);
    DivModUnique(r / 4, 4, a, b);
    DivModUnique(r, 16, a, b * 4 + c);
    r
  }

  /** `getHeightMapIndex`: column-major over x, then z. */
  function HeightMapIndex(x: int, z: int): (r: int)
    ensures InColumn(x, z) ==> 0 <= r < 256 && r / 16 == x && r % 16 == z
  {
    x * 16 + z
  }

  // ---------------------------------------------------------------------
  // Block states

  /** The block sections of a column, as values: a missing section is
    * `None`, a present one holds its 4096 state ids. */
  predicate SectionsShaped(secs: seq<Option<seq<uint16>>>)
  {
    forall i :: 0 <= i < |secs| && secs[i].Some? ==> |secs[i].value| == SectionVolume
  }

  predicate ColumnShaped(secs: seq<Option<seq<uint16>>>)
  {
    |secs| == NumSections && SectionsShaped(secs)
  }

  /** Every present section holds a block that is not air. */
  predicate NoEmptySection(secs: seq<Option<seq<uint16>>>)
  {
    forall i :: 0 <= i < |secs| && secs[i].Some? ==> NonAir(secs[i].value) > 0
  }

  predicate InChunk(x: int, y: int, z: int)
  {
    InColumn(x, z) && 0 <= y < 256
  }

  /** `GetBlockState`: air (0) where there is no section. */
  function BlockAt(secs: seq<Option<seq<uint16>>>, x: int, y: int, z: int): (r: uint16)
    requires ColumnShaped(secs) && InChunk(x, y, z)
    ensures secs[SectionIndex(y)].None? ==> r == 0
  {
    match secs[SectionIndex(y)]
    case None => 0
    case Some(ids) => ids[SectionBlockIndex(x, y, z)]
  }

  /** `SetBlockState`: the state stored at the position, in a new all-air
    * section if there was none; a section left with nothing but air is
    * dropped, and none is created to hold air. */
  function SetBlock(secs: seq<Option<seq<uint16>>>, x: int, y: int, z: int, state: uint16): (r: seq<Option<seq<uint16>>>)
    requires ColumnShaped(secs) && InChunk(x, y, z)
    ensures ColumnShaped(r)
    ensures NoEmptySection(secs) ==> NoEmptySection(r)
    ensures forall i :: 0 <= i < NumSections && i != SectionIndex(y) ==> r[i] == secs[i]
    ensures secs[SectionIndex(y)].None? && state == 0 ==> r == secs
  {
    var s := SectionIndex(y);
    var ids := if secs[s].Some? then secs[s].value else seq(SectionVolume, _ => 0);
    var ids' := ids[SectionBlockIndex(x, y, z) := state];
    secs[s := if NonAir(ids') == 0 then None else Some(ids')]
  }

  /** A state reads back where it was set, and nowhere else changes. */
  lemma SetBlockThenGet(secs: seq<Option<seq<uint16>>>, x: int, y: int, z: int, state: uint16, x': int, y': int, z': int)
    requires ColumnShaped(secs) && InChunk(x, y, z) && InChunk(x', y', z')
    ensures BlockAt(SetBlock(secs, x, y, z, state), x', y', z')
      == if x == x' && y == y' && z == z' then state else BlockAt(secs, x', y', z')
  {
    if SectionIndex(y') == SectionIndex(y) {
      var idx, idx' := SectionBlockIndex(x, y, z), SectionBlockIndex(x', y', z');
      if idx == idx' {
        SectionBlockIndexInjective(x, y, z, x', y', z');
      }
      SetInSection(secs, x, y, z, state, idx');
    }
  }

  /** What `SetBlock` leaves at index `k` of the addressed section. */
  lemma SetInSection(secs: seq<Option<seq<uint16>>>, x: int, y: int, z: int, state: uint16, k: nat)
    requires ColumnShaped(secs) && InChunk(x, y, z) && k < SectionVolume
    ensures var s, r := SectionIndex(y), SetBlock(secs, x, y, z, state);
      var v := if r[s].Some? then r[s].value[k] else 0;
      var u := if secs[s].Some? then secs[s].value[k] else 0;
      v == if k == SectionBlockIndex(x, y, z) then state else u
  {
    var s := SectionIndex(y);
    var ids := if secs[s].Some? then secs[s].value else seq(SectionVolume, _ => 0);
    var ids' := ids[SectionBlockIndex(x, y, z) := state];
    if NonAir(ids') == 0 {
      assert ids'[k] == 0;
    }
  }

  // ---------------------------------------------------------------------
  // Light nibbles

  /** A light value of a byte: `b >> 4` for an odd index, `b & 0xf` for an
    * even one. */
  function Nibble(b: byte, odd: bool): (r: nat)
    ensures r < 16
  {
    if odd then b / 16 else b % 16
  }

  /** The light setters' byte update: `(b & 0x0f) | (val << 4)` for an odd
    * index, `(b & 0xf0) | val` for an even one, each a sum of disjoint
    * nibbles. Only the addressed nibble changes. */
  function StoreNibble(b: byte, odd: bool, val: nat): (r: byte)
    requires val < 16
    ensures Nibble(r, odd) == val && Nibble(r, !odd) == Nibble(b, !odd)
  {
    var lo, hi := b % 16, b / 16;
    if odd then
      DivModUnique(lo + val * 16, 16, val, lo);
      lo + val * 16
    else
      DivModUnique(hi * 16 + val, 16, hi, val);
      hi * 16 + val
  }

  /** The light arrays of a chunk: 18 optional buffers of 2048 bytes. */
  predicate LightShaped(bufs: seq<Option<seq<byte>>>)
  {
    |bufs| == NumLightSections
    && forall i :: 0 <= i < |bufs| && bufs[i].Some? ==> |bufs[i].value| == LightVolume
  }

  /** `[NumLightSections]*[LightVolume]uint8`: the type of a chunk's light
    * arrays. */
  type LightBuffers = bufs: seq<Option<seq<byte>>> | LightShaped(bufs)
    witness seq(NumLightSections, _ => None)

  /** The heights the light arrays cover. */
  predicate InLight(x: int, y: int, z: int)
  {
    InColumn(x, z) && -16 <= y < 272
  }

  /** `GetSkyLight` and `GetBlockLight`: 0 where there is no buffer. */
  function Light(bufs: seq<Option<seq<byte>>>, x: int, y: int, z: int): (r: nat)
    requires LightShaped(bufs) && InLight(x, y, z)
    ensures r < 16
    ensures bufs[LightSection(y)].None? ==> r == 0
  {
    match bufs[LightSection(y)]
    case None => 0
    case Some(b) =>
      var idx := SectionBlockIndex(x, y, z);
      Nibble(b[idx / 2], idx % 2 == 1)
  }

  /** `SetSkyLight` and `SetBlockLight`: the low four bits of `light`
    * stored in the position's nibble; a missing buffer is created first,
    * except when `light` is 0. Only that nibble changes. */
  function SetLight(bufs: seq<Option<seq<byte>>>, x: int, y: int, z: int, light: int): (r: seq<Option<seq<byte>>>)
    requires LightShaped(bufs) && InLight(x, y, z)
    ensures LightShaped(r)
    ensures bufs[LightSection(y)].None? && light == 0 ==> r == bufs
    ensures forall i :: 0 <= i < NumLightSections && i != LightSection(y) ==> r[i] == bufs[i]
    ensures r[LightSection(y)].Some?
      ==> var idx := SectionBlockIndex(x, y, z);
          var old_ := if bufs[LightSection(y)].Some? then bufs[LightSection(y)].value else seq(LightVolume, _ => 0);
          (forall j :: 0 <= j < LightVolume && j != idx / 2 ==> r[LightSection(y)].value[j] == old_[j])
          && Nibble(r[LightSection(y)].value[idx / 2], idx % 2 == 0) == Nibble(old_[idx / 2], idx % 2 == 0)
  {
    var s := LightSection(y);
    if bufs[s].None? && light == 0 then bufs
    else
      var b := if bufs[s].Some? then bufs[s].value else seq(LightVolume, _ => 0);
      var idx := SectionBlockIndex(x, y, z);
      bufs[s := Some(b[idx / 2 := StoreNibble(b[idx / 2], idx % 2 == 1, light % 16)])]
  }

  /** A light value reads back as its low four bits, and every other
    * position keeps its light. */
  lemma SetLightThenGet(bufs: seq<Option<seq<byte>>>, x: int, y: int, z: int, light: int, x': int, y': int, z': int)
    requires LightShaped(bufs) && InLight(x, y, z) && InLight(x', y', z')
    ensures Light(SetLight(bufs, x, y, z, light), x', y', z')
      == if (x, y, z) == (x', y', z') then light % 16 else Light(bufs, x', y', z')
  {
    if (x, y, z) == (x', y', z') {
      SetLightHere(bufs, x, y, z, light);
    } else {
      SetLightElsewhere(bufs, x, y, z, light, x', y', z');
    }
  }

  /** The position set reads back as the low four bits of `light`. */
  lemma SetLightHere(bufs: seq<Option<seq<byte>>>, x: int, y: int, z: int, light: int)
    requires LightShaped(bufs) && InLight(x, y, z)
    ensures Light(SetLight(bufs, x, y, z, light), x, y, z) == light % 16
  {
    var s, idx := LightSection(y), SectionBlockIndex(x, y, z);
    if bufs[s].Some? || light != 0 {
      var b := if bufs[s].Some? then bufs[s].value else seq(LightVolume, _ => 0);
      var nb := b[idx / 2 := StoreNibble(b[idx / 2], idx % 2 == 1, light % 16)];
      assert SetLight(bufs, x, y, z, light) == bufs[s := Some(nb)];
    }
  }

  /** Every other position keeps its light. */
  lemma SetLightElsewhere(bufs: seq<Option<seq<byte>>>, x: int, y: int, z: int, light: int, x': int, y': int, z': int)
    requires LightShaped(bufs) && InLight(x, y, z) && InLight(x', y', z') && (x, y, z) != (x', y', z')
    ensures Light(SetLight(bufs, x, y, z, light), x', y', z') == Light(bufs, x', y', z')
  {
    var s, s' := LightSection(y), LightSection(y');
    var idx, idx' := SectionBlockIndex(x, y, z), SectionBlockIndex(x', y', z');
    DistinctCells(x, y, z, x', y', z');
    SharedByte(idx, idx');
  }

  /** Two different positions of the light arrays lie in different sections
    * or at different indices within one. */
  lemma DistinctCells(x: int, y: int, z: int, x': int, y': int, z': int)
    requires InLight(x, y, z) && InLight(x', y', z')
    ensures (x, y, z) != (x', y', z')
      ==> LightSection(y) != LightSection(y') || SectionBlockIndex(x, y, z) != SectionBlockIndex(x', y', z')
  {
  }

  /** Two different indices that share a byte take its two halves. */
  lemma SharedByte(idx: nat, idx': nat)
    ensures idx != idx' && idx / 2 == idx' / 2 ==> idx % 2 != idx' % 2
  {
  }

  // ---------------------------------------------------------------------
  // The packed data array

  /** Every element of a `count`-element array of `bits`-wide elements
    * lies within its `CompactArrayLength` words. */
  lemma FitsInArray(ws: seq<Word>, bits: nat, count: nat)
    requires 1 <= bits <= 64 && |ws| == CompactArrayLength(bits, count)
    ensures forall j :: 0 <= j < count ==> Fits(ws, bits, j)
  {
    forall j | 0 <= j < count
      ensures Fits(ws, bits, j)
    {
      FitsOne(|ws|, bits, count, j);
    }
  }

  /** One element of that array: its end bit is within the words. */
  lemma FitsOne(words: nat, bits: nat, count: nat, j: nat)
    requires 1 <= bits <= 64 && words == CompactArrayLength(bits, count) && j < count
    ensures (j + 1) * bits <= 64 * words
  {
    var total := bits * count;
    assert total <= words * 64;
    MulMono(bits, j + 1, count);
    assert (j + 1) * bits == bits * (j + 1);
  }

  /** The words of a fresh `CompactArray` of `bits`-wide elements for
    * `vals`, after `Set(i, vals[i])` for `i` in `0 .. n-1`, in order. */
  function Packed(bits: nat, vals: seq<int>, n: nat): (r: seq<Word>)
    requires 1 <= bits <= 64 && n <= |vals|
    ensures |r| == CompactArrayLength(bits, |vals|)
    ensures forall j :: 0 <= j < |vals| ==> Fits(r, bits, j)
    decreases n
  {
    var r :=
      if n == 0 then
        MulMonoIf(bits, 0, |vals|);
        seq(CompactArrayLength(bits, |vals|), _ => Zeros(64))
      else SetWords(Packed(bits, vals, n - 1), bits, n - 1, vals[n - 1]);
    FitsInArray(r, bits, |vals|);
    r
  }

  /** The element slots not yet set are still zero. */
  lemma {:induction false} PackedZeroTail(bits: nat, vals: seq<int>, n: nat)
    requires 1 <= bits <= 64 && n <= |vals|
    ensures forall k :: n * bits <= k < 64 * |Packed(bits, vals, n)| ==> !Flatten(Packed(bits, vals, n))[k]
    decreases n
  {
    if n == 0 {
      FlattenZeros(Packed(bits, vals, 0));
    } else {
      var m := n - 1;
      PackedZeroTail(bits, vals, m);
      SetWordsKeepsZeroTail(Packed(bits, vals, m), bits, m, vals[m]);
      assert (m + 1) * bits == n * bits;
    }
  }

  /** Setting the next element of an array whose tail is zero leaves the
    * elements before it, and reads back as the value's low bits. */
  lemma FillStep(ws: seq<Word>, bits: nat, index: nat, value: int, j: nat)
    requires Fits(ws, bits, index) && Fits(ws, bits, j) && j <= index
    requires forall k :: index * bits <= k < 64 * |ws| ==> !Flatten(ws)[k]
    ensures GetWordsFixed(SetWords(ws, bits, index, value), bits, j)
      == if j == index then ToInt64(value % Pow2(bits)) else GetWordsFixed(ws, bits, j)
  {
    SetWordsOnZeroTail(ws, bits, index, value);
    SetThenGetFixed(ws, bits, index, value, j);
  }

  /** One more element set in order. */
  lemma PackedStep(bits: nat, vals: seq<int>, n: nat)
    requires 1 <= bits <= 64 && 1 <= n <= |vals|
    ensures Packed(bits, vals, n) == SetWords(Packed(bits, vals, n - 1), bits, n - 1, vals[n - 1])
  {
  }

  /** Setting element `m` of the array filled up to `m` reads back at
    * `m` and leaves the elements before it. */
  lemma PackedFillStep(bits: nat, vals: seq<int>, m: nat, j: nat)
    requires 1 <= bits <= 64 && j <= m < |vals|
    ensures GetWordsFixed(Packed(bits, vals, m + 1), bits, j)
      == if j == m then ToInt64(vals[m] % Pow2(bits)) else GetWordsFixed(Packed(bits, vals, m), bits, j)
  {
    PackedStep(bits, vals, m + 1);
    PackedZeroTail(bits, vals, m);
    FillStep(Packed(bits, vals, m), bits, m, vals[m], j);
  }

  /** Filling a fresh array in order never meets the crossing-word defect
    * of `Set`: each element reads back, with the intended `Get`, as the low
    * `bits` bits of the value stored, converted to Go's `int`. */
  lemma {:induction false} PackedRead(bits: nat, vals: seq<int>, n: nat, j: nat)
    requires 1 <= bits <= 64 && j < n <= |vals|
    ensures GetWordsFixed(Packed(bits, vals, n), bits, j) == ToInt64(vals[j] % Pow2(bits))
    decreases n
  {
    var m := n - 1;
    PackedFillStep(bits, vals, m, j);
    if j < m {
      PackedRead(bits, vals, m, j);
    }
  }

  /** The longs of the data array, each big-endian. */
  function WordsBytes(ws: seq<Word>): (r: seq<byte>)
    ensures |r| == 8 * |ws|
  {
    if ws == [] then [] else WordsBytes(ws[..|ws| - 1]) + BigEndian(Num(ws[|ws| - 1]), 8)
  }

  /** A list of ids, each as a varint. */
  function VarintsBytes(xs: seq<uint16>): (r: seq<byte>)
    ensures |r| <= 3 * |xs|
  {
    if xs == [] then []
    else
      VarintLength16(xs[|xs| - 1]);
      VarintsBytes(xs[..|xs| - 1]) + VarintBytes(xs[|xs| - 1])
  }

  // ---------------------------------------------------------------------
  // A section on the wire

  /** `indexMap` as a function: the position of `x` in `pids`, or -1. */
  function IndexIn(pids: seq<uint16>, x: int): (r: int)
    ensures x in pids <==> 0 <= r
    ensures x in pids ==> r < |pids| && pids[r] == x
  {
    if x in pids then IndexOf(pids, x) else -1
  }

  /** The bits per block the section is sent with. */
  function SectionBits(ids: seq<uint16>): (r: nat)
    requires |ids| == SectionVolume
    ensures 4 <= r <= 13
    ensures r <= MaxBitsPerBlock <==> |FirstOccurrences(ids)| <= 128
  {
    var n := |FirstOccurrences(ids)|;
    SectionBitsBound(n);
    BitsPerBlock(n)
  }

  lemma SectionBitsBound(n: nat)
    requires n <= SectionVolume
    ensures BitsPerBlock(n) <= 13
    ensures BitsPerBlock(n) <= MaxBitsPerBlock <==> n <= 128
  {
    var r := BitsPerBlock(n);
    assert Pow2(7) == 128 && Pow2(12) == 4096;
    if r > 13 {
      Pow2Mono(12, r - 2);
    }
    if r > 8 {
      Pow2Mono(7, r - 2);
    } else {
      Pow2Mono(r - 1, 7);
    }
  }

  /** What is packed for each block: the state id itself in direct mode,
    * its palette position otherwise. */
  function SectionValues(ids: seq<uint16>): (r: seq<int>)
    requires |ids| == SectionVolume
    ensures |r| == |ids|
  {
    if SectionBits(ids) > MaxBitsPerBlock then ids
    else seq(|ids|, k requires 0 <= k < |ids| => IndexIn(FirstOccurrences(ids), ids[k]))
  }

  /** The section's data array, as `MakeChunkDataPacket` fills it. */
  function SectionData(ids: seq<uint16>): (r: seq<Word>)
    requires |ids| == SectionVolume
    ensures |r| == CompactArrayLength(SectionBits(ids), SectionVolume)
  {
    Packed(SectionBits(ids), SectionValues(ids), |ids|)
  }

  /** One section: its non-air count as a short, its bits per block, the
    * palette when there is one, and the data array with its length. */
  function SectionBytes(ids: seq<uint16>): (r: seq<byte>)
    requires |ids| == SectionVolume
  {
    var pids := FirstOccurrences(ids);
    var bits := SectionBits(ids);
    var data := SectionData(ids);
    var head: seq<byte> := BigEndian(NonAir(ids), 2) + [bits];
    head
      + (if bits <= MaxBitsPerBlock then VarintBytes(|pids|) + VarintsBytes(pids) else [])
      + VarintBytes(|data|) + WordsBytes(data)
  }

  /** In an indirect section every block reads back as the palette
    * position of its id. */
  lemma IndirectRead(ids: seq<uint16>, k: nat)
    requires |ids| == SectionVolume && k < SectionVolume && SectionBits(ids) <= MaxBitsPerBlock
    ensures ids[k] in FirstOccurrences(ids)
    ensures GetWordsFixed(SectionData(ids), SectionBits(ids), k) == IndexOf(FirstOccurrences(ids), ids[k])
  {
    FirstOccurrencesElements(ids);
    var pids := FirstOccurrences(ids);
    var bits := SectionBits(ids);
    PackedRead(bits, SectionValues(ids), |ids|, k);
    var v := IndexOf(pids, ids[k]);
    assert SectionValues(ids)[k] == v;
    DivModUnique(v, Pow2(bits), 0, v);
    ToInt64Narrow(v, bits);
  }

  /** As written, direct mode packs state ids into the section's own
    * `bitsPerBlock`, 9 to 13 bits, so an id at or above 8192 cannot be
    * read back from a section with more than 128 distinct ids. */
  lemma DirectModeLosesIds(ids: seq<uint16>, k: nat)
    requires |ids| == SectionVolume && k < SectionVolume
    requires |FirstOccurrences(ids)| > 128 && ids[k] >= 0x2000
    ensures SectionBits(ids) > MaxBitsPerBlock
    ensures GetWordsFixed(SectionData(ids), SectionBits(ids), k) != ids[k]
  {
    var bits := SectionBits(ids);
    var vals := SectionValues(ids);
    assert vals[k] == ids[k] as int;
    PackedRead(bits, vals, |ids|, k);
    assert Pow2(13) == 0x2000;
    Pow2Mono(bits, 13);
    ModBelowChanges(ids[k] as int, Pow2(bits));
    ToInt64Narrow(ids[k] as int % Pow2(bits), bits);
  }

  /** A number at or above the modulus is not its own remainder. */
  lemma ModBelowChanges(v: int, m: int)
    requires 0 < m <= v
    ensures v % m != v
  {
  }

  /** The data array as intended: direct mode uses the global palette's
    * `GlobalBitsPerBlock` bits. */
  function SectionBitsFixed(ids: seq<uint16>): (r: nat)
    requires |ids| == SectionVolume
    ensures r <= MaxBitsPerBlock || r == GlobalBitsPerBlock
  {
    if SectionBits(ids) > MaxBitsPerBlock then GlobalBitsPerBlock else SectionBits(ids)
  }

  function SectionDataFixed(ids: seq<uint16>): (r: seq<Word>)
    requires |ids| == SectionVolume
  {
    Packed(SectionBitsFixed(ids), SectionValues(ids), |ids|)
  }

  /** With the global width every state id below `2^14` reads back in
    * direct mode, and every palette position in indirect mode. */
  lemma SectionDataFixedReads(ids: seq<uint16>, k: nat)
    requires |ids| == SectionVolume && k < SectionVolume && AllIndexed(ids)
    ensures SectionBitsFixed(ids) > MaxBitsPerBlock ==>
      GetWordsFixed(SectionDataFixed(ids), SectionBitsFixed(ids), k) == ids[k]
    ensures SectionBitsFixed(ids) <= MaxBitsPerBlock ==>
      ids[k] in FirstOccurrences(ids)
      && GetWordsFixed(SectionDataFixed(ids), SectionBitsFixed(ids), k) == IndexOf(FirstOccurrences(ids), ids[k])
  {
    if SectionBits(ids) > MaxBitsPerBlock {
      DirectReadFixed(ids, k);
    } else {
      IndirectRead(ids, k);
    }
  }

  lemma DirectReadFixed(ids: seq<uint16>, k: nat)
    requires |ids| == SectionVolume && k < SectionVolume && AllIndexed(ids)
    requires SectionBits(ids) > MaxBitsPerBlock
    ensures GetWordsFixed(SectionDataFixed(ids), GlobalBitsPerBlock, k) == ids[k]
  {
    var v := ids[k];
    assert v < Pow2(14) by {
      assert Pow2(14) == 0x4000;
    }
    DivModUnique(v, Pow2(14), 0, v);
    ToInt64Narrow(v as int, 14);
    PackedRead(14, ids, |ids|, k);
    assert SectionDataFixed(ids) == Packed(14, ids, |ids|) by {
      assert SectionBitsFixed(ids) == 14 && SectionValues(ids) == ids;
    }
  }

  /** A section takes at most 8000 bytes: at most 128 palette entries of
    * three bytes, and at most 832 longs of data. */
  lemma SectionBytesBound(ids: seq<uint16>)
    requires |ids| == SectionVolume
    ensures |SectionBytes(ids)| <= MaxSectionBytes
  {
    var pids := FirstOccurrences(ids);
    var bits := SectionBits(ids);
    var len := |SectionData(ids)|;
    assert len <= 832 by {
      MulMono(SectionVolume, bits, 13);
    }
    VarintLength16(len);
    if bits <= MaxBitsPerBlock {
      VarintLength16(|pids|);
    }
  }

  const MaxSectionBytes: nat := 8000

  /** The bytes one slot of the column adds: its section's, or none. */
  function SlotBytes(slot: Option<seq<uint16>>): (r: seq<byte>)
    requires slot.Some? ==> |slot.value| == SectionVolume
    ensures |r| <= MaxSectionBytes
  {
    if slot.Some? then
      SectionBytesBound(slot.value);
      SectionBytes(slot.value)
    else []
  }

  /** Every present section, in order. */
  function SectionsBytes(secs: seq<Option<seq<uint16>>>): (r: seq<byte>)
    requires SectionsShaped(secs)
    ensures |r| <= MaxSectionBytes * |secs|
  {
    if secs == [] then []
    else SectionsBytes(secs[..|secs| - 1]) + SlotBytes(secs[|secs| - 1])
  }

  /** Which entries are present. */
  function Presence<T>(s: seq<Option<T>>): (r: seq<bool>)
    ensures |r| == |s| && forall i :: 0 <= i < |s| ==> r[i] == s[i].Some?
  {
    seq(|s|, i requires 0 <= i < |s| => s[i].Some?)
  }

  /** A bit mask with bit `i` set for every `p[i]` that holds: the packet
    * builders' `mask |= 1 << i`. */
  function Mask(p: seq<bool>): (r: nat)
    ensures r < Pow2(|p|)
  {
    if p == [] then 0
    else Mask(p[..|p| - 1]) + (if p[|p| - 1] then Pow2(|p| - 1) else 0)
  }

  /** Bit `i` of the mask is set exactly when `p[i]` holds. */
  lemma {:induction false} MaskBit(p: seq<bool>, i: nat)
    requires i < |p|
    ensures (Mask(p) / Pow2(i)) % 2 == 1 <==> p[i]
    decreases |p|
  {
    var n := |p| - 1;
    if i == n {
      MaskTop(p);
    } else {
      MaskBit(p[..n], i);
      MaskLow(p, i);
    }
  }

  /** The highest bit of the mask is the last entry. */
  lemma MaskTop(p: seq<bool>)
    requires p != []
    ensures Mask(p) / Pow2(|p| - 1) == if p[|p| - 1] then 1 else 0
  {
    var n := |p| - 1;
    DivModUnique(Mask(p), Pow2(n), if p[n] then 1 else 0, Mask(p[..n]));
  }

  /** The last entry does not touch the lower bits. */
  lemma MaskLow(p: seq<bool>, i: nat)
    requires i < |p| - 1
    ensures (Mask(p) / Pow2(i)) % 2 == (Mask(p[..|p| - 1]) / Pow2(i)) % 2
  {
    var n := |p| - 1;
    if p[n] {
      var m := n - i;
      var a, d, e := Mask(p[..n]), Pow2(i), Pow2(m - 1);
      assert Mask(p) == a + d * (2 * e) by {
        assert Mask(p) == a + Pow2(n);
        Pow2Add(i, m);
        assert i + m == n;
        assert Pow2(m) == 2 * e;
        MulSubst(d, Pow2(m), 2 * e);
      }
      HigherBit(Mask(p), a, d, e);
    }
  }

  lemma MulSubst(d: int, u: int, v: int)
    requires u == v
    ensures d * u == d * v
  {
  }

  /** Adding a multiple of `2d` leaves bit `d` of `a` as it was. */
  lemma HigherBit(t: int, a: nat, d: nat, e: nat)
    requires d > 0 && t == a + d * (2 * e)
    ensures (t / d) % 2 == (a / d) % 2
  {
    DivAddMultiple(a, d, 2 * e);
    DivAddMultiple(a / d, 2, e);
  }

  lemma DivAddMultiple(a: int, d: int, k: int)
    requires d > 0
    ensures (a + d * k) / d == a / d + k && (a + d * k) % d == a % d
  {
    DivModUnique(a + d * k, d, a / d + k, a % d);
  }

  function IntsBytes(xs: seq<int32>): (r: seq<byte>)
    ensures |r| == 4 * |xs|
  {
    if xs == [] then [] else IntsBytes(xs[..|xs| - 1]) + BigEndian(xs[|xs| - 1], 4)
  }

  /** The Chunk Data packet of a full column (id 0x22): the coordinates as
    * ints, `true` for a full chunk, the section mask, an empty height-map
    * compound, the biomes, then the sections prefixed with their length. */
  function ChunkDataBytes(x: int, z: int, secs: seq<Option<seq<uint16>>>, biomes: seq<int32>): (r: seq<byte>)
    requires SectionsShaped(secs)
  {
    ChunkHeaderBytes(x, z, Mask(Presence(secs)), biomes, |SectionsBytes(secs)|) + SectionsBytes(secs)
  }

  /** Everything of the Chunk Data packet before the section data. */
  function ChunkHeaderBytes(x: int, z: int, mask: nat, biomes: seq<int32>, dataSize: nat): seq<byte>
  {
    VarintBytes(0x22) + BigEndian(x, 4) + BigEndian(z, 4) + [1]
      + VarintBytes(mask) + Nbt.EmptyCompound() + IntsBytes(biomes) + VarintBytes(dataSize)
  }

  /** Each present light buffer prefixed with its length. */
  function BuffersBytes(bufs: seq<Option<seq<byte>>>): seq<byte>
  {
    if bufs == [] then []
    else
      var last := bufs[|bufs| - 1];
      BuffersBytes(bufs[..|bufs| - 1]) + (if last.Some? then VarintBytes(|last.value|) + last.value else [])
  }

  /** The Update Light packet (id 0x25): the coordinates as varints of
    * their 32-bit patterns, the sky and block masks, two empty masks, then
    * the sky buffers and the block buffers. */
  function LightBytes(x: int, z: int, sky: seq<Option<seq<byte>>>, block: seq<Option<seq<byte>>>): seq<byte>
  {
    VarintBytes(0x25) + VarintBytes(x % 0x1_0000_0000) + VarintBytes(z % 0x1_0000_0000)
      + VarintBytes(Mask(Presence(sky))) + VarintBytes(Mask(Presence(block))) + [0, 0]
      + BuffersBytes(sky) + BuffersBytes(block)
  }
}
