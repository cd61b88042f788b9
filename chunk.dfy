/** The chunk column (`Chunk` in minecraft/chunk/chunk.go): sixteen block
  * sections that come and go as blocks are set, the biomes, the sky and
  * block light, and the Chunk Data and Update Light packets built from
  * them. The ghost `Blocks` is the column's contents as values; `Valid`
  * ties it to the sections. */
module Chunks {
  import opened Bytes
  import opened Wrappers
  import opened Writers
  import opened Common
  import opened Palettes
  import opened Sections
  import opened ChunkFormats
  import NbtWriters
  import Readers

  /** A section slot holds the blocks `b`: it is empty exactly when `b` is
    * `None`, and a present section keeps its own invariant, holds the ids
    * of `b` and is not all air. */
  ghost predicate Holds(sec: Section?, b: Option<seq<uint16>>)
    reads sec, if sec != null then {sec.palette} else {}
  {
    (sec == null <==> b.None?)
    && (sec != null ==> sec.Valid() && sec.ids == b.value && sec.blockCount > 0)
  }

  /** Replacing one slot with a shaped, non-empty section (or none) keeps
    * the column shaped and free of empty sections. */
  lemma SlotReplaced(secs: seq<Option<seq<uint16>>>, s: nat, b: Option<seq<uint16>>)
    requires ColumnShaped(secs) && NoEmptySection(secs) && s < NumSections
    requires b.Some? ==> |b.value| == SectionVolume && NonAir(b.value) > 0
    ensures ColumnShaped(secs[s := b]) && NoEmptySection(secs[s := b])
  {
  }

  class Chunk {
    const x: int
    const z: int
    var sections: seq<Section?>
    var biomes: seq<int32>
    var skyLight: LightBuffers
    var blockLight: LightBuffers
    /** The state ids of every section, `None` where there is no section. */
    ghost var Blocks: seq<Option<seq<uint16>>>
    ghost var Repr: set<object>

    ghost predicate Valid()
      reads this, Repr
    {
      this in Repr
      && |sections| == NumSections && ColumnShaped(Blocks) && NoEmptySection(Blocks)
      && |biomes| == BiomesLength
      && (forall i :: 0 <= i < NumSections && sections[i] != null ==>
            sections[i] in Repr && (sections[i].palette != null ==> sections[i].palette in Repr))
      && (forall i :: 0 <= i < NumSections ==> Holds(sections[i], Blocks[i]))
      && (forall i, j :: 0 <= i < j < NumSections && sections[i] != null ==> sections[i] != sections[j])
    }

    /** Every present section among the first `n` has its palette cached. */
    ghost predicate CachedBelow(n: nat)
      reads this, sections
    {
      forall j :: 0 <= j < n && j < |sections| && sections[j] != null ==> sections[j].palette != null
    }

    /** `NewChunk`: no sections, no light, every biome 0. */
    constructor (x: int, z: int)
      ensures Valid() && fresh(Repr)
      ensures this.x == x && this.z == z
      ensures Blocks == seq(NumSections, _ => None)
      ensures biomes == seq(BiomesLength, _ => 0)
      ensures skyLight == seq(NumLightSections, _ => None) && blockLight == seq(NumLightSections, _ => None)
    {
      this.x := x;
      this.z := z;
      sections := seq(NumSections, _ => null);
      biomes := seq(BiomesLength, _ => 0);
      skyLight := seq(NumLightSections, _ => None);
      blockLight := seq(NumLightSections, _ => None);
      Blocks := seq(NumSections, _ => None);
      Repr := {this};
    }

    /** `GetBlockState`: the id at the position, air where there is no
      * section. */
    function GetBlockState(x: int, y: int, z: int): (r: uint16)
      requires Valid() && InChunk(x, y, z)
      reads this, Repr
      ensures r == BlockAt(Blocks, x, y, z)
    {
      var sec := sections[SectionIndex(y)];
      assert Holds(sec, Blocks[SectionIndex(y)]);
      if sec == null then 0 else sec.ids[SectionBlockIndex(x, y, z)]
    }

    /** `SetBlockState`: keeps the section's count of non-air blocks as it
      * stores the id, drops a section left all air, and creates none to
      * hold air. The section written to forgets its palette. */
    method SetBlockState(x: int, y: int, z: int, state: uint16)
      requires Valid() && InChunk(x, y, z)
      modifies Repr
      ensures Valid() && fresh(Repr - old(Repr))
      ensures Blocks == SetBlock(old(Blocks), x, y, z, state)
      ensures biomes == old(biomes) && skyLight == old(skyLight) && blockLight == old(blockLight)
      ensures forall i :: 0 <= i < NumSections && i != SectionIndex(y) ==> sections[i] == old(sections[i])
      ensures sections[SectionIndex(y)] != null ==> sections[SectionIndex(y)].palette == null
    {
      var s := SectionIndex(y);
      assert Holds(sections[s], Blocks[s]);
      var idx := SectionBlockIndex(x, y, z);
      if sections[s] == null {
        if state == 0 {
          return;
        }
        AddSection(s, idx, state);
      } else {
        UpdateSection(s, idx, state);
      }
    }

    /** `SetBlockState` where there is no section: a new one is made to hold
      * the id. */
    method AddSection(s: nat, idx: nat, state: uint16)
      requires Valid() && s < NumSections && sections[s] == null && idx < SectionVolume && state != 0
      modifies this
      ensures Valid() && fresh(Repr - old(Repr))
      ensures Blocks == old(Blocks)[s := Some(seq(SectionVolume, _ => 0)[idx := state])]
      ensures biomes == old(biomes) && skyLight == old(skyLight) && blockLight == old(blockLight)
      ensures forall i :: 0 <= i < NumSections && i != s ==> sections[i] == old(sections[i])
      ensures sections[s] != null && sections[s].palette == null
    {
      var sec := new Section();
      assert sec.ids[idx := state][idx] != 0;
      sec.Store(idx, state);
      sections := sections[s := sec];
      Blocks := Blocks[s := Some(sec.ids)];
      Repr := Repr + {sec};
    }

    /** `SetBlockState` where there is a section: the id is stored, or the
      * section dropped when that would leave it all air. */
    method UpdateSection(s: nat, idx: nat, state: uint16)
      requires Valid() && s < NumSections && sections[s] != null && idx < SectionVolume
      modifies this, sections[s]
      ensures Valid() && Repr == old(Repr)
      ensures Blocks == old(var ids := Blocks[s].value[idx := state];
        Blocks[s := if NonAir(ids) == 0 then None else Some(ids)])
      ensures biomes == old(biomes) && skyLight == old(skyLight) && blockLight == old(blockLight)
      ensures forall i :: 0 <= i < NumSections && i != s ==> sections[i] == old(sections[i])
      ensures sections[s] != null ==> sections[s].palette == null
    {
      var sec := sections[s];
      assert Holds(sec, Blocks[s]);
      sec.Store(idx, state);
      if sec.blockCount == 0 {
        sections := sections[s := null];
        Blocks := Blocks[s := None];
      } else {
        Blocks := Blocks[s := Some(sec.ids)];
      }
      SlotReplaced(old(Blocks), s, Blocks[s]);
      forall i | 0 <= i < NumSections && i != s
        ensures Holds(sections[i], Blocks[i])
      {
        assert old(Holds(sections[i], Blocks[i]));
        if sections[i] != null {
          assert sections[i] != sec;
        }
      }
    }

    /** `GetSkyLight`: 0 where there is no buffer. */
    function GetSkyLight(x: int, y: int, z: int): (r: int)
      requires LightShaped(skyLight) && InLight(x, y, z)
      reads this
      ensures r == Light(skyLight, x, y, z)
    {
      match skyLight[LightSection(y)]
      case None => 0
      case Some(sec) =>
        var idx := SectionBlockIndex(x, y, z);
        var half := idx / 2;
        if idx % 2 == 1 then sec[half] / 16 else sec[half] % 16
    }

    /** `GetBlockLight`: 0 where there is no buffer. */
    function GetBlockLight(x: int, y: int, z: int): (r: int)
      requires LightShaped(blockLight) && InLight(x, y, z)
      reads this
      ensures r == Light(blockLight, x, y, z)
    {
      match blockLight[LightSection(y)]
      case None => 0
      case Some(sec) =>
        var idx := SectionBlockIndex(x, y, z);
        var half := idx / 2;
        if idx % 2 == 1 then sec[half] / 16 else sec[half] % 16
    }

    /** `SetSkyLight`: the low four bits of `light` into the position's
      * nibble; no buffer is created to hold 0. */
    method SetSkyLight(x: int, y: int, z: int, light: int)
      requires Valid() && InLight(x, y, z)
      modifies this
      ensures Valid()
      ensures skyLight == SetLight(old(skyLight), x, y, z, light)
      ensures blockLight == old(blockLight) && biomes == old(biomes)
      ensures sections == old(sections) && Blocks == old(Blocks) && Repr == old(Repr)
    {
      var s := LightSection(y);
      var sec: seq<byte>;
      if skyLight[s].None? {
        if light == 0 {
          return;
        }
        sec := seq(LightVolume, _ => 0);
      } else {
        sec := skyLight[s].value;
      }
      var val := light % 16;
      var idx := SectionBlockIndex(x, y, z);
      var half := idx / 2;
      sec := sec[half := StoreNibble(sec[half], idx % 2 == 1, val)];
      skyLight := skyLight[s := Some(sec)];
    }

    /** `SetBlockLight`: as `SetSkyLight`, on the block light. */
    method SetBlockLight(x: int, y: int, z: int, light: int)
      requires Valid() && InLight(x, y, z)
      modifies this
      ensures Valid()
      ensures blockLight == SetLight(old(blockLight), x, y, z, light)
      ensures skyLight == old(skyLight) && biomes == old(biomes)
      ensures sections == old(sections) && Blocks == old(Blocks) && Repr == old(Repr)
    {
      var s := LightSection(y);
      var sec: seq<byte>;
      if blockLight[s].None? {
        if light == 0 {
          return;
        }
        sec := seq(LightVolume, _ => 0);
      } else {
        sec := blockLight[s].value;
      }
      var val := light % 16;
      var idx := SectionBlockIndex(x, y, z);
      var half := idx / 2;
      sec := sec[half := StoreNibble(sec[half], idx % 2 == 1, val)];
      blockLight := blockLight[s := Some(sec)];
    }

    /** The loop body of `MakeChunkDataPacket` that calls `generatePalette`
      * on a present section: the palette of its ids, cached in the section
      * and owned by the chunk. */
    method SectionPalette(i: nat) returns (p: Palette)
      requires Valid() && i < NumSections && sections[i] != null && AllIndexed(Blocks[i].value)
      modifies this, sections[i]
      ensures Valid() && fresh(Repr - old(Repr))
      ensures sections == old(sections) && Blocks == old(Blocks)
      ensures biomes == old(biomes) && skyLight == old(skyLight) && blockLight == old(blockLight)
      ensures sections[i].ids == Blocks[i].value && sections[i].blockCount == NonAir(Blocks[i].value)
      ensures Describes(p, Blocks[i].value)
      ensures old(CachedBelow(i)) ==> CachedBelow(i + 1)
    {
      var sec := sections[i];
      assert Holds(sec, Blocks[i]);
      p := sec.GeneratePalette();
      Repr := Repr + {p};
      assert Holds(sections[i], Blocks[i]);
      forall j | 0 <= j < NumSections && j != i
        ensures Holds(sections[j], Blocks[j])
      {
        assert old(Holds(sections[j], Blocks[j]));
        if sections[j] != null {
          assert sections[j] != sec;
        }
      }
    }

    /** The body of the first loop of `MakeChunkDataPacket`: a present
      * section `i` sets bit `i` of the mask, has its palette computed and
      * adds its bytes to the data size. */
    method PrepareSection(i: nat, mask: int32, dataSize: int32) returns (mask': int32, dataSize': int32)
      requires Valid() && i < NumSections && AllIndexedBlocks(Blocks)
      requires mask == Mask(Presence(Blocks[..i])) && dataSize == |SectionsBytes(Blocks[..i])|
      requires CachedBelow(i)
      modifies Repr
      ensures Valid() && fresh(Repr - old(Repr)) && CachedBelow(i + 1)
      ensures sections == old(sections) && Blocks == old(Blocks)
      ensures biomes == old(biomes) && skyLight == old(skyLight) && blockLight == old(blockLight)
      ensures mask' == Mask(Presence(Blocks[..i + 1])) && dataSize' == |SectionsBytes(Blocks[..i + 1])|
    {
      ghost var blocks := Blocks;
      MaskStep(blocks, i);
      SectionsBytesStep(blocks, i);
      var present, size := SlotSize(i);
      mask' := if present then mask + Pow2(i) as int32 else mask;
      dataSize' := dataSize + size as int32;
    }

    /** The part of that loop body that looks at the section: a missing one
      * is skipped; a present one has its palette computed and its size
      * taken. */
    method SlotSize(i: nat) returns (present: bool, size: nat)
      requires Valid() && i < NumSections && AllIndexedBlocks(Blocks) && CachedBelow(i)
      modifies Repr
      ensures Valid() && fresh(Repr - old(Repr)) && CachedBelow(i + 1)
      ensures sections == old(sections) && Blocks == old(Blocks)
      ensures biomes == old(biomes) && skyLight == old(skyLight) && blockLight == old(blockLight)
      ensures present == Blocks[i].Some? && size == |SlotBytes(Blocks[i])|
    {
      assert Holds(sections[i], Blocks[i]);
      present, size := false, 0;
      if sections[i] != null {
        present := true;
        var p := SectionPalette(i);
        size := SectionSize(sections[i].ids, p);
      }
    }

    /** The first loop of `MakeChunkDataPacket`: the mask of present
      * sections and the number of bytes they take. */
    method PrepareSections() returns (mask: int32, dataSize: int32)
      requires Valid() && AllIndexedBlocks(Blocks)
      modifies Repr
      ensures Valid() && fresh(Repr - old(Repr))
      ensures sections == old(sections) && Blocks == old(Blocks)
      ensures biomes == old(biomes) && skyLight == old(skyLight) && blockLight == old(blockLight)
      ensures mask == Mask(Presence(Blocks)) && dataSize == |SectionsBytes(Blocks)|
      ensures CachedBelow(NumSections)
    {
      mask := 0;
      dataSize := 0;
      var i := 0;
      while i < NumSections
        invariant 0 <= i <= NumSections
        invariant Valid() && fresh(Repr - old(Repr)) && CachedBelow(i)
        invariant sections == old(sections) && Blocks == old(Blocks)
        invariant biomes == old(biomes) && skyLight == old(skyLight) && blockLight == old(blockLight)
        invariant mask == Mask(Presence(Blocks[..i])) && dataSize == |SectionsBytes(Blocks[..i])|
      {
        mask, dataSize := PrepareSection(i, mask, dataSize);
        i := i + 1;
      }
      assert Blocks[..i] == Blocks;
    }

    /** The body of the second loop of `MakeChunkDataPacket`: section `i`,
      * if present, with its palette. The first loop cached every present
      * section's palette, so `generatePalette` here only hands back the
      * cached one and changes nothing. */
    method WriteSectionAt(i: nat, w: Writer)
      requires Valid() && CachedBelow(NumSections) && i < NumSections && AllIndexedBlocks(Blocks) && w !in Repr
      modifies w
      ensures w.data == old(w.data) + SlotBytes(Blocks[i])
    {
      var sec := sections[i];
      ghost var b := Blocks[i];
      assert Holds(sec, b);
      if sec != null {
        assert AllIndexed(b.value);
        var p := sec.palette;
        WriteSectionData(sec.ids, sec.blockCount, p, w);
      } else {
        assert w.data == old(w.data) + [];
      }
    }

    /** The second loop of `MakeChunkDataPacket`: every present section in
      * order. */
    method WriteSections(w: Writer)
      requires Valid() && CachedBelow(NumSections) && AllIndexedBlocks(Blocks) && w !in Repr
      modifies w
      ensures w.data == old(w.data) + SectionsBytes(Blocks)
    {
      ghost var d0 := w.data;
      var i := 0;
      while i < NumSections
        invariant 0 <= i <= NumSections
        invariant w.data == d0 + SectionsBytes(Blocks[..i])
      {
        WriteSectionAt(i, w);
        SectionsBytesStep(Blocks, i);
        Append3(d0, SectionsBytes(Blocks[..i]), SlotBytes(Blocks[i]));
        i := i + 1;
      }
      assert Blocks[..i] == Blocks;
    }

    /** `MakeChunkDataPacket`: the Chunk Data packet of the whole column.
      * Every present section caches its palette on the way. */
    method MakeChunkDataPacket(w: Writer)
      requires Valid() && AllIndexedBlocks(Blocks) && w !in Repr
      modifies Repr, w
      ensures Valid() && fresh(Repr - old(Repr))
      ensures sections == old(sections) && Blocks == old(Blocks)
      ensures biomes == old(biomes) && skyLight == old(skyLight) && blockLight == old(blockLight)
      ensures w.data == old(w.data) + ChunkDataBytes(x, z, Blocks, biomes)
    {
      var mask, dataSize := PrepareSections();
      WriteChunkData(mask, dataSize, w);
    }

    /** The writes of `MakeChunkDataPacket`, once the first loop has taken
      * the mask and the data size and cached every palette. */
    method WriteChunkData(mask: int32, dataSize: int32, w: Writer)
      requires Valid() && CachedBelow(NumSections) && AllIndexedBlocks(Blocks) && w !in Repr
      requires mask == Mask(Presence(Blocks)) && dataSize == |SectionsBytes(Blocks)|
      modifies w
      ensures w.data == old(w.data) + ChunkDataBytes(x, z, Blocks, biomes)
    {
      ghost var d0 := w.data;
      WriteChunkHeader(x, z, mask, biomes, dataSize, w);
      WriteSections(w);
      Append3(d0, ChunkHeaderBytes(x, z, mask as int, biomes, dataSize as int), SectionsBytes(Blocks));
    }

    /** `MakeUpdateLightPacket`: the Update Light packet of the column. The
      * coordinates are written with the intended `WriteVarint`, as the one
      * in the source does not finish for a negative chunk coordinate. */
    method MakeUpdateLightPacket(w: Writer)
      requires LightShaped(skyLight) && LightShaped(blockLight)
      modifies w
      ensures w.data == old(w.data) + LightBytes(x, z, skyLight, blockLight)
    {
      var skyLightMask, blockLightMask := LightMasks(skyLight, blockLight);
      ghost var d0 := w.data;
      w.WriteVarint(0x25);
      ghost var acc := VarintBytes(0x25);
      WrapPattern(x);
      WrapPattern(z);
      w.WriteVarintFixed(Wrap(x, 4));
      Append3(d0, acc, VarintBytes(x % 0x1_0000_0000));
      acc := acc + VarintBytes(x % 0x1_0000_0000);
      w.WriteVarintFixed(Wrap(z, 4));
      Append3(d0, acc, VarintBytes(z % 0x1_0000_0000));
      acc := acc + VarintBytes(z % 0x1_0000_0000);
      w.WriteVarint(skyLightMask);
      Append3(d0, acc, VarintBytes(skyLightMask));
      acc := acc + VarintBytes(skyLightMask);
      w.WriteVarint(blockLightMask);
      Append3(d0, acc, VarintBytes(blockLightMask));
      acc := acc + VarintBytes(blockLightMask);
      w.WriteVarint(0);
      w.WriteVarint(0);
      assert [0] + [0] == [0, 0];
      Append3(d0 + acc, [0], [0]);
      Append3(d0, acc, [0, 0]);
      acc := acc + [0, 0];
      WriteBuffers(skyLight, w);
      Append3(d0, acc, BuffersBytes(skyLight));
      acc := acc + BuffersBytes(skyLight);
      WriteBuffers(blockLight, w);
      Append3(d0, acc, BuffersBytes(blockLight));
      assert acc + BuffersBytes(blockLight) == LightBytes(x, z, skyLight, blockLight);
    }
  }

  /** The loop of `MakeUpdateLightPacket` over the light sections: bit `i`
    * of a mask is set when the section has a light array. The count the
    * loop also keeps is never used, and is left out. */
  method LightMasks(sky: seq<Option<seq<byte>>>, block: seq<Option<seq<byte>>>) returns (skyLightMask: int32, blockLightMask: int32)
    requires |sky| == NumLightSections && |block| == NumLightSections
    ensures skyLightMask == Mask(Presence(sky)) && blockLightMask == Mask(Presence(block))
  {
    skyLightMask, blockLightMask := 0, 0;
    var i := 0;
    while i < NumLightSections
      invariant 0 <= i <= NumLightSections
      invariant skyLightMask == Mask(Presence(sky[..i]))
      invariant blockLightMask == Mask(Presence(block[..i]))
    {
      skyLightMask := AddMaskBit(sky, i, skyLightMask);
      blockLightMask := AddMaskBit(block, i, blockLightMask);
      i := i + 1;
    }
    assert sky[..i] == sky && block[..i] == block;
  }

  /** One step of that loop for one mask: `Pow2(i)` is added when section
    * `i` has a light array. */
  method AddMaskBit(bufs: seq<Option<seq<byte>>>, i: nat, mask: int32) returns (r: int32)
    requires i < |bufs| == NumLightSections && mask as int == Mask(Presence(bufs[..i]))
    ensures r as int == Mask(Presence(bufs[..i + 1]))
  {
    LightMaskStep(bufs, i);
    r := mask;
    if bufs[i] != None {
      r := mask + Pow2(i) as int32;
    }
  }

  /** One more light section sets its bit of the mask if it has an array;
    * eighteen sections give a mask below `2^18`. */
  lemma LightMaskStep(bufs: seq<Option<seq<byte>>>, i: nat)
    requires i < |bufs| && i < NumLightSections
    ensures Mask(Presence(bufs[..i + 1])) == Mask(Presence(bufs[..i])) + (if bufs[i].Some? then Pow2(i) else 0)
    ensures Mask(Presence(bufs[..i + 1])) < 0x4_0000
  {
    assert Presence(bufs[..i + 1])[..i] == Presence(bufs[..i]);
    assert Pow2(18) == 0x4_0000 by { Writers.Pow2Add(16, 2); Writers.Pow2Add(8, 8); }
    Pow2Mono(i + 1, 18);
  }

  /** The part of `MakeChunkDataPacket` before the sections: the packet
    * id, the coordinates as `int32`s, the full-chunk flag, the section
    * mask, an empty compound for the height maps, the biomes and the size
    * of the section data. */
  method WriteChunkHeader(x: int, z: int, mask: int32, biomes: seq<int32>, dataSize: int32, w: Writer)
    requires mask >= 0 && dataSize >= 0
    modifies w
    ensures w.data == old(w.data) + ChunkHeaderBytes(x, z, mask as int, biomes, dataSize as int)
  {
    ghost var d0 := w.data;
    w.WriteVarint(0x22);
    ghost var acc := VarintBytes(0x22);
    NbtWriters.WrapEncodes(x, 4);
    NbtWriters.WrapEncodes(z, 4);
    assert Pow256(4) == 0x1_0000_0000;
    w.WriteInt(Wrap(x, 4));
    Append3(d0, acc, BigEndian(x, 4));
    acc := acc + BigEndian(x, 4);
    w.WriteInt(Wrap(z, 4));
    Append3(d0, acc, BigEndian(z, 4));
    acc := acc + BigEndian(z, 4);
    w.WriteBoolean(true);
    Append3(d0, acc, [1]);
    acc := acc + [1];
    w.WriteVarint(mask);
    Append3(d0, acc, VarintBytes(mask));
    acc := acc + VarintBytes(mask);
    var nbt := new NbtWriters.NbtWriter(w);
    nbt.StartCompound([]);
    var _ := nbt.EndCompound();
    Append3(d0 + acc, Nbt.TagHeader(Nbt.TagCompound, []), [Nbt.TagEnd]);
    Append3(d0, acc, Nbt.EmptyCompound());
    acc := acc + Nbt.EmptyCompound();
    WriteInts(biomes, w);
    Append3(d0, acc, IntsBytes(biomes));
    acc := acc + IntsBytes(biomes);
    w.WriteVarint(dataSize);
    Append3(d0, acc, VarintBytes(dataSize));
  }

  /** The biomes, each as an `int32`. */
  method WriteInts(xs: seq<int32>, w: Writer)
    modifies w
    ensures w.data == old(w.data) + IntsBytes(xs)
  {
    var j := 0;
    while j < |xs|
      invariant 0 <= j <= |xs|
      invariant w.data == old(w.data) + IntsBytes(xs[..j])
    {
      w.WriteInt(xs[j]);
      assert xs[..j + 1][..j] == xs[..j];
      Append3(old(w.data), IntsBytes(xs[..j]), BigEndian(xs[j], 4));
      j := j + 1;
    }
    assert xs[..j] == xs;
  }

  /** Every id of every present section has a slot in `indexMap`. */
  ghost predicate AllIndexedBlocks(secs: seq<Option<seq<uint16>>>)
  {
    forall i :: 0 <= i < |secs| && secs[i].Some? ==> AllIndexed(secs[i].value)
  }

  /** `int32(v)` has the 32-bit pattern of `v`, and is an `int32`. */
  lemma WrapPattern(v: int)
    ensures -0x8000_0000 <= Wrap(v, 4) < 0x8000_0000
    ensures Wrap(v, 4) % 0x1_0000_0000 == v % 0x1_0000_0000
  {
    var P := Pow256(4);
    assert P == 0x1_0000_0000;
    var u := v % P;
    if u >= P / 2 {
      DivModUnique(u - P, P, -1, u);
    } else {
      DivModUnique(u, P, 0, u);
    }
  }

  /** A word of the data array as the `int64` Go holds it: written with
    * `WriteLong`, it gives the big-endian bytes of its 64 bits. */
  function WordLong(wd: Word): (r: int64)
    ensures BigEndian(r, 8) == BigEndian(Num(wd), 8)
  {
    var n := Num(wd);
    Pow2Of64();
    Readers.Pow256Of8();
    if n >= Pow2(63) then
      BigEndianMod(n - Pow2(64), 8);
      DivModUnique(n - Pow2(64), Pow256(8), -1, n);
      n - Pow2(64)
    else n
  }

  /** The palette: its length, then each id, as varints. */
  method WriteIds(ids: seq<uint16>, w: Writer)
    requires |ids| < 0x8000_0000
    modifies w
    ensures w.data == old(w.data) + (VarintBytes(|ids|) + VarintsBytes(ids))
  {
    w.WriteVarint(|ids|);
    ghost var prefix := w.data;
    var j := 0;
    while j < |ids|
      invariant 0 <= j <= |ids|
      invariant w.data == prefix + VarintsBytes(ids[..j])
    {
      w.WriteVarint(ids[j]);
      assert ids[..j + 1][..j] == ids[..j];
      Append3(prefix, VarintsBytes(ids[..j]), VarintBytes(ids[j]));
      j := j + 1;
    }
    assert ids[..j] == ids;
    Append3(old(w.data), VarintBytes(|ids|), VarintsBytes(ids));
  }

  /** One more slot of the column sets its bit of the mask if it holds a
    * section; sixteen slots give a mask below `2^16`. */
  lemma MaskStep(secs: seq<Option<seq<uint16>>>, i: nat)
    requires i < |secs| && i < NumSections
    ensures Mask(Presence(secs[..i + 1])) == Mask(Presence(secs[..i])) + (if secs[i].Some? then Pow2(i) else 0)
    ensures Mask(Presence(secs[..i + 1])) < 0x1_0000
  {
    assert Presence(secs[..i + 1])[..i] == Presence(secs[..i]);
    assert Pow2(16) == 0x1_0000 by { Writers.Pow2Add(8, 8); }
    Pow2Mono(i + 1, 16);
  }

  /** One more slot of the column adds its section's bytes, if any. */
  lemma SectionsBytesStep(secs: seq<Option<seq<uint16>>>, i: nat)
    requires SectionsShaped(secs) && i < |secs|
    ensures SectionsBytes(secs[..i + 1]) == SectionsBytes(secs[..i]) + SlotBytes(secs[i])
    ensures |SectionsBytes(secs[..i + 1])| <= MaxSectionBytes * (i + 1)
  {
    assert secs[..i + 1][..i] == secs[..i];
  }

  lemma WordsBytesStep(ws: seq<Word>, j: nat)
    requires j < |ws|
    ensures WordsBytes(ws[..j + 1]) == WordsBytes(ws[..j]) + BigEndian(Num(ws[j]), 8)
  {
    assert ws[..j + 1][..j] == ws[..j];
  }

  /** The data array: its length, then its longs. */
  method WriteData(values: seq<Word>, w: Writer)
    requires |values| < 0x8000_0000
    modifies w
    ensures w.data == old(w.data) + (VarintBytes(|values|) + WordsBytes(values))
  {
    w.WriteVarint(|values|);
    WriteLongs(values, w);
    Append3(old(w.data), VarintBytes(|values|), WordsBytes(values));
  }

  method WriteLongs(values: seq<Word>, w: Writer)
    modifies w
    ensures w.data == old(w.data) + WordsBytes(values)
  {
    var j := 0;
    while j < |values|
      invariant 0 <= j <= |values|
      invariant w.data == old(w.data) + WordsBytes(values[..j])
    {
      w.WriteLong(WordLong(values[j]));
      WordsBytesStep(values, j);
      Append3(old(w.data), WordsBytes(values[..j]), BigEndian(Num(values[j]), 8));
      j := j + 1;
    }
    assert values[..j] == values;
  }

  /** The data array of a section: each block's id in direct mode, its
    * palette position through `indexMap` otherwise, set in order into a
    * fresh `CompactArray` of the palette's width. */
  method PackSection(ids: seq<uint16>, p: Palette) returns (packed: CompactArray)
    requires |ids| == SectionVolume && AllIndexed(ids) && Describes(p, ids)
    ensures fresh(packed) && fresh(packed.values)
    ensures packed.values[..] == SectionData(ids)
  {
    var bits := p.bitsPerBlock as int;
    ghost var vals := SectionValues(ids);
    assert bits == SectionBits(ids);
    packed := new CompactArray(bits, SectionVolume);
    assert packed.values[..] == Packed(bits, vals, 0);
    var i := 0;
    while i < |ids|
      invariant 0 <= i <= |ids| && packed.bitsPerElement == bits
      invariant packed.values.Length == |Packed(bits, vals, 0)|
      invariant packed.values[..] == Packed(bits, vals, i)
      modifies packed.values
    {
      PackAt(ids, p, packed, i);
      i := i + 1;
    }
  }

  /** One step of `PackSection`'s loop: the block's state id in direct
    * mode, or its palette position in indirect mode, goes to slot `i`. */
  method PackAt(ids: seq<uint16>, p: Palette, packed: CompactArray, i: nat)
    requires |ids| == SectionVolume && AllIndexed(ids) && Describes(p, ids) && i < |ids|
    requires packed.bitsPerElement == SectionBits(ids)
    requires packed.values[..] == Packed(SectionBits(ids), SectionValues(ids), i)
    modifies packed.values
    ensures packed.values[..] == Packed(SectionBits(ids), SectionValues(ids), i + 1)
  {
    if p.bitsPerBlock > MaxBitsPerBlock {
      var _ := packed.Set(i, ids[i]);
    } else {
      IndexMapFinds(ids, p.indexMap, i);
      var _ := packed.Set(i, p.indexMap[ids[i]]);
    }
  }

  /** The first loop of `MakeChunkDataPacket` on one section: the bytes the
    * section will take, with `VarintSize` for every varint. */
  method SectionSize(ids: seq<uint16>, p: Palette) returns (size: nat)
    requires |ids| == SectionVolume && Describes(p, ids)
    ensures size == |SectionBytes(ids)|
  {
    var bits := p.bitsPerBlock as int;
    assert bits == SectionBits(ids);
    size := 2 + 1;
    if bits <= MaxBitsPerBlock {
      var n := PaletteSize(p.ids);
      size := size + n;
    }
    var arrayLen := CompactArrayLength(bits, SectionVolume);
    assert arrayLen <= 832 by {
      MulMono(SectionVolume, bits, 13);
    }
    var k := VarintSize(arrayLen);
    size := size + k + arrayLen * 8;
    SectionBytesLength(ids);
  }

  /** The palette part of `SectionSize`: the length, then every id, each
    * a varint. */
  method PaletteSize(pids: seq<uint16>) returns (size: nat)
    requires |pids| < 0x1_0000
    ensures size == |VarintBytes(|pids|)| + |VarintsBytes(pids)|
  {
    var n := VarintSize(|pids|);
    size := n;
    var j := 0;
    while j < |pids|
      invariant 0 <= j <= |pids|
      invariant size == n + |VarintsBytes(pids[..j])|
    {
      assert pids[..j + 1][..j] == pids[..j];
      var m := VarintSize(pids[j]);
      size := size + m;
      j := j + 1;
    }
    assert pids[..j] == pids;
  }

  /** The length of a section's bytes, part by part. */
  lemma SectionBytesLength(ids: seq<uint16>)
    requires |ids| == SectionVolume
    ensures var pids := FirstOccurrences(ids);
      var len := CompactArrayLength(SectionBits(ids), SectionVolume);
      |SectionBytes(ids)| == 3 + (if SectionBits(ids) <= MaxBitsPerBlock then |VarintBytes(|pids|)| + |VarintsBytes(pids)| else 0)
        + |VarintBytes(len)| + 8 * len
  {
  }

  /** The second loop of `MakeChunkDataPacket` on one section. */
  method WriteSectionData(ids: seq<uint16>, blockCount: int, p: Palette, w: Writer)
    requires |ids| == SectionVolume && AllIndexed(ids) && Describes(p, ids)
    requires blockCount == NonAir(ids)
    modifies w
    ensures w.data == old(w.data) + SectionBytes(ids)
  {
    assert p.bitsPerBlock == SectionBits(ids);
    ghost var d0 := w.data;
    w.WriteShort(blockCount);
    w.WriteByte(p.bitsPerBlock);
    ghost var head: seq<byte> := BigEndian(NonAir(ids), 2) + [p.bitsPerBlock];
    Append3(d0, BigEndian(NonAir(ids), 2), [p.bitsPerBlock]);
    ghost var pal: seq<byte> := [];
    assert head + pal == head;
    var direct := p.bitsPerBlock > MaxBitsPerBlock;
    if !direct {
      WriteIds(p.ids, w);
      pal := VarintBytes(|p.ids|) + VarintsBytes(p.ids);
      Append3(d0, head, pal);
    }
    assert w.data == d0 + (head + pal);
    var packed := PackSection(ids, p);
    ghost var data := packed.values[..];
    assert |data| <= 832 by {
      MulMono(SectionVolume, p.bitsPerBlock, 13);
    }
    WriteData(packed.values[..], w);
    Append3(d0, head + pal, VarintBytes(|data|) + WordsBytes(data));
    Append3(head + pal, VarintBytes(|data|), WordsBytes(data));
  }

  /** The light arrays that are present, each prefixed with its length. */
  method WriteBuffers(bufs: seq<Option<seq<byte>>>, w: Writer)
    requires LightShaped(bufs)
    modifies w
    ensures w.data == old(w.data) + BuffersBytes(bufs)
  {
    var i := 0;
    while i < |bufs|
      invariant 0 <= i <= |bufs|
      invariant w.data == old(w.data) + BuffersBytes(bufs[..i])
    {
      assert bufs[..i + 1][..i] == bufs[..i];
      if bufs[i] != None {
        var buf := bufs[i].value;
        w.WriteVarint(|buf|);
        w.WriteBytes(buf);
        Append3(old(w.data) + BuffersBytes(bufs[..i]), VarintBytes(|buf|), buf);
        Append3(old(w.data), BuffersBytes(bufs[..i]), VarintBytes(|buf|) + buf);
      } else {
        assert BuffersBytes(bufs[..i + 1]) == BuffersBytes(bufs[..i]) + [];
      }
      i := i + 1;
    }
    assert bufs[..i] == bufs;
  }
}
