/** The flat-grass world generator
  * (minecraft/world/generator/flatgrass/generator.go): every column is
  * bedrock at the bottom, stone, dirt and one layer of grass, with air
  * above. The block table is not part of this model, so the four state
  * ids are the generator's parameters. */
module Flatgrass {
  import opened Bytes
  import opened Wrappers
  import opened ChunkFormats
  import opened Positions
  import opened Chunks

  class FlatgrassGenerator {
    const bedrock: uint16
    const stone: uint16
    const dirt: uint16
    const grass: uint16

    constructor (bedrock: uint16, stone: uint16, dirt: uint16, grass: uint16)
      ensures this.bedrock == bedrock && this.stone == stone && this.dirt == dirt && this.grass == grass
    {
      this.bedrock := bedrock;
      this.stone := stone;
      this.dirt := dirt;
      this.grass := grass;
    }

    /** `GetSpawn`: above the grass of the middle of chunk (0, 0). */
    function GetSpawn(): (r: Position)
      ensures r.x == 8 && r.y == 62 && r.z == 8
      ensures Layer(r.y - 1) == grass && Layer(r.y) == 0
    {
      Position(8, 62, 8)
    }

    /** The state the generator places at height `y` of every column. */
    function Layer(y: int): uint16
    {
      if y == 0 then bedrock
      else if 1 <= y < 48 then stone
      else if 48 <= y < 61 then dirt
      else if y == 61 then grass
      else 0
    }

    /** What the chunk holds once the loops have reached column `(x, z)`
      * and, in that column, height `y`: the layers in every column before
      * it (x-major, then z) and below `y` in it, air elsewhere. */
    ghost function Partial(x: int, z: int, y: int, x': int, y': int, z': int): uint16
    {
      if x' < x || (x' == x && z' < z) || (x' == x && z' == z && y' < y) then Layer(y') else 0
    }

    /** Every position of the chunk holds the layer of its height. */
    ghost predicate IsFlat(blocks: seq<Option<seq<uint16>>>)
      requires ColumnShaped(blocks)
    {
      forall x', y', z' :: InChunk(x', y', z') ==> BlockAt(blocks, x', y', z') == Layer(y')
    }

    ghost predicate Reached(blocks: seq<Option<seq<uint16>>>, x: int, z: int, y: int)
      requires ColumnShaped(blocks)
    {
      forall x', y', z' :: InChunk(x', y', z') ==> BlockAt(blocks, x', y', z') == Partial(x, z, y, x', y', z')
    }

    /** Setting the layer at the current height moves the frontier up by
      * one. */
    lemma Advance(blocks: seq<Option<seq<uint16>>>, x: int, z: int, y: int)
      requires ColumnShaped(blocks) && InChunk(x, y, z) && Reached(blocks, x, z, y)
      ensures Reached(SetBlock(blocks, x, y, z, Layer(y)), x, z, y + 1)
    {
      var b := SetBlock(blocks, x, y, z, Layer(y));
      forall x', y', z' | InChunk(x', y', z')
        ensures BlockAt(b, x', y', z') == Partial(x, z, y + 1, x', y', z')
      {
        SetBlockThenGet(blocks, x, y, z, Layer(y), x', y', z');
      }
    }

    /** A column finished at height 62 is a column done: nothing is set
      * above the grass. */
    lemma NextColumn(blocks: seq<Option<seq<uint16>>>, x: int, z: int)
      requires ColumnShaped(blocks) && Reached(blocks, x, z, 62)
      ensures Reached(blocks, x, z + 1, 0)
    {
    }

    /** A row of columns done is the next row begun. */
    lemma NextRow(blocks: seq<Option<seq<uint16>>>, x: int)
      requires ColumnShaped(blocks) && Reached(blocks, x, 16, 0)
      ensures Reached(blocks, x + 1, 0, 0)
    {
      forall x', y', z' | InChunk(x', y', z')
        ensures BlockAt(blocks, x', y', z') == Partial(x + 1, 0, 0, x', y', z')
      {
        assert Partial(x, 16, 0, x', y', z') == Partial(x + 1, 0, 0, x', y', z');
      }
    }

    /** `GenerateChunk`: a new chunk at the given chunk coordinates with
      * the layers in every column, and nothing else set. */
    method GenerateChunk(x: int, z: int) returns (c: Chunk)
      ensures fresh(c) && fresh(c.Repr) && c.Valid()
      ensures c.x == x && c.z == z && IsFlat(c.Blocks)
      ensures forall x', z' :: InColumn(x', z') ==> BlockAt(c.Blocks, x', 0, z') == bedrock
      ensures forall x', y', z' :: InColumn(x', z') && 1 <= y' < 48 ==> BlockAt(c.Blocks, x', y', z') == stone
      ensures forall x', y', z' :: InColumn(x', z') && 48 <= y' < 61 ==> BlockAt(c.Blocks, x', y', z') == dirt
      ensures forall x', z' :: InColumn(x', z') ==> BlockAt(c.Blocks, x', 61, z') == grass
      ensures forall x', y', z' :: InColumn(x', z') && 62 <= y' < 256 ==> BlockAt(c.Blocks, x', y', z') == 0
      ensures c.biomes == seq(BiomesLength, _ => 0)
      ensures c.skyLight == seq(NumLightSections, _ => None) && c.blockLight == seq(NumLightSections, _ => None)
    {
      c := new Chunk(x, z);
      var bx := 0;
      while bx < 16
        invariant 0 <= bx <= 16
        invariant c.Valid() && fresh(c.Repr) && c.x == x && c.z == z
        invariant c.biomes == seq(BiomesLength, _ => 0)
        invariant c.skyLight == seq(NumLightSections, _ => None) && c.blockLight == seq(NumLightSections, _ => None)
        invariant Reached(c.Blocks, bx, 0, 0)
      {
        var bz := 0;
        while bz < 16
          invariant 0 <= bz <= 16
          invariant c.Valid() && fresh(c.Repr) && c.x == x && c.z == z
          invariant c.biomes == seq(BiomesLength, _ => 0)
          invariant c.skyLight == seq(NumLightSections, _ => None) && c.blockLight == seq(NumLightSections, _ => None)
          invariant Reached(c.Blocks, bx, bz, 0)
        {
          FillColumn(c, bx, bz);
          NextColumn(c.Blocks, bx, bz);
          bz := bz + 1;
        }
        NextRow(c.Blocks, bx);
        bx := bx + 1;
      }
      assert Reached(c.Blocks, 16, 0, 0);
    }

    /** The body of `GenerateChunk`'s inner loop: one column, bottom up. */
    method FillColumn(c: Chunk, x: int, z: int)
      requires c.Valid() && InColumn(x, z) && Reached(c.Blocks, x, z, 0)
      modifies c.Repr
      ensures c.Valid() && fresh(c.Repr - old(c.Repr))
      ensures Reached(c.Blocks, x, z, 62)
      ensures c.biomes == old(c.biomes) && c.skyLight == old(c.skyLight) && c.blockLight == old(c.blockLight)
    {
      Place(c, x, 0, z, bedrock);
      var y := 1;
      while y < 48
        invariant 1 <= y <= 48
        invariant c.Valid() && fresh(c.Repr - old(c.Repr)) && Reached(c.Blocks, x, z, y)
        invariant c.biomes == old(c.biomes) && c.skyLight == old(c.skyLight) && c.blockLight == old(c.blockLight)
      {
        Place(c, x, y, z, stone);
        y := y + 1;
      }
      while y < 61
        invariant 48 <= y <= 61
        invariant c.Valid() && fresh(c.Repr - old(c.Repr)) && Reached(c.Blocks, x, z, y)
        invariant c.biomes == old(c.biomes) && c.skyLight == old(c.skyLight) && c.blockLight == old(c.blockLight)
      {
        Place(c, x, y, z, dirt);
        y := y + 1;
      }
      Place(c, x, 61, z, grass);
    }

    /** One `SetBlockState` call of `GenerateChunk`. */
    method Place(c: Chunk, x: int, y: int, z: int, state: uint16)
      requires c.Valid() && InChunk(x, y, z) && state == Layer(y) && Reached(c.Blocks, x, z, y)
      modifies c.Repr
      ensures c.Valid() && fresh(c.Repr - old(c.Repr))
      ensures Reached(c.Blocks, x, z, y + 1)
      ensures c.biomes == old(c.biomes) && c.skyLight == old(c.skyLight) && c.blockLight == old(c.blockLight)
    {
      Advance(c.Blocks, x, z, y);
      c.SetBlockState(x, y, z, state);
    }
  }
}
