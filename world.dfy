/** The world (minecraft/world/world.go): a cache of chunk columns keyed by
  * chunk coordinates, filled on demand from the provider or, failing
  * that, from the generator; and block and light accessors in world
  * coordinates that load the chunk holding the position. */
module Worlds {
  import opened Bytes
  import opened Wrappers
  import opened ChunkFormats
  import opened Chunks
  import opened Flatgrass

  datatype ChunkPos = ChunkPos(x: int, z: int)

  /** `x >> 4`: the chunk coordinate of a world coordinate, rounding
    * towards negative infinity as the arithmetic shift does. */
  function ChunkCoord(x: int): (r: int)
    ensures 16 * r <= x < 16 * r + 16
  {
    x / 16
  }

  /** `x & 0xf`: the coordinate within the chunk, never negative. */
  function LocalCoord(x: int): (r: int)
    ensures 0 <= r < 16 && x == 16 * ChunkCoord(x) + r
  {
    x % 16
  }

  /** A world coordinate is its chunk coordinate and its local one. */
  lemma CoordsDetermine(x: int, x': int)
    requires ChunkCoord(x) == ChunkCoord(x') && LocalCoord(x) == LocalCoord(x')
    ensures x == x'
  {
  }

  /** The chunks a provider can load are well formed, own disjoint
    * objects, and no chunk is stored under two positions. */
  ghost predicate ProviderOk(provider: map<ChunkPos, Chunk>)
    reads provider.Values, set c, o | c in provider.Values && o in c.Repr :: o
  {
    (forall k :: k in provider ==> provider[k].Valid())
    && (forall k, k' :: k in provider && k' in provider && k != k' ==>
          provider[k] != provider[k'] && provider[k].Repr !! provider[k'].Repr)
  }

  class World {
    /** The chunks the provider can load, by position; the null provider of
      * the repository has none. */
    const provider: map<ChunkPos, Chunk>
    const generator: FlatgrassGenerator
    var chunks: map<ChunkPos, Chunk>
    ghost var Repr: set<object>

    ghost function AllChunks(): set<Chunk>
      reads this
    {
      chunks.Values + provider.Values
    }

    /** The chunk the world would use for position `k`: the cached one,
      * else the provider's, else none (the generator's is made anew). */
    ghost function Source(k: ChunkPos): (c: Chunk?)
      reads this
    {
      if k in chunks then chunks[k] else if k in provider then provider[k] else null
    }

    ghost predicate Owned(c: Chunk)
      reads this, Repr
    {
      c in Repr && c.Repr <= Repr && this !in c.Repr && c.Valid()
    }

    /** The world's invariant: a position cached from the provider holds
      * the provider's chunk; every chunk the world holds or can load is
      * well formed and owned; the chunks of two positions are distinct and
      * share no object. */
    ghost predicate Valid()
      reads this, Repr
    {
      this in Repr
      && (forall k :: k in chunks && k in provider ==> chunks[k] == provider[k])
      && (forall k :: Source(k) != null ==> Owned(Source(k)))
      && (forall k, k' :: k != k' && Source(k) != null && Source(k') != null ==>
            Source(k) != Source(k') && Source(k).Repr !! Source(k').Repr)
    }

    /** `NewWorld`: nothing loaded yet. */
    constructor (provider: map<ChunkPos, Chunk>, generator: FlatgrassGenerator)
      requires ProviderOk(provider)
      ensures Valid() && this.provider == provider && this.generator == generator && chunks == map[]
    {
      this.provider := provider;
      this.generator := generator;
      chunks := map[];
      Repr := {this} + provider.Values + (set c, o | c in provider.Values && o in c.Repr :: o);
      new;
      forall k | Source(k) != null
        ensures Owned(Source(k))
      {
        var c := provider[k];
        assert forall o :: o in c.Repr ==> o in Repr;
      }
    }

    /** `GetChunk`: the cached chunk at the position, or null; nothing is
      * loaded. */
    function GetChunk(x: int, z: int): (c: Chunk?)
      reads this
      ensures c != null <==> ChunkPos(x, z) in chunks
      ensures c != null ==> c == chunks[ChunkPos(x, z)] && c == Source(ChunkPos(x, z))
    {
      var k := ChunkPos(x, z);
      if k in chunks then chunks[k] else null
    }

    /** The state a chunk reports at one of its positions; with no chunk,
      * the generator's layer. */
    ghost function StateOf(c: Chunk?, x: int, y: int, z: int): uint16
      reads c
    {
      if c == null then generator.Layer(y)
      else if ColumnShaped(c.Blocks) && InChunk(x, y, z) then BlockAt(c.Blocks, x, y, z)
      else 0
    }

    /** The sky light of a chunk's position; a generated chunk starts with
      * none. */
    ghost function SkyOf(c: Chunk?, x: int, y: int, z: int): nat
      reads c
    {
      if c != null && LightShaped(c.skyLight) && InLight(x, y, z) then Light(c.skyLight, x, y, z) else 0
    }

    ghost function BlockLightOf(c: Chunk?, x: int, y: int, z: int): nat
      reads c
    {
      if c != null && LightShaped(c.blockLight) && InLight(x, y, z) then Light(c.blockLight, x, y, z) else 0
    }

    /** What the world reports at a position of chunk `k`. */
    ghost function StateIn(k: ChunkPos, x: int, y: int, z: int): uint16
      reads this, Source(k)
    {
      StateOf(Source(k), x, y, z)
    }

    ghost function SkyIn(k: ChunkPos, x: int, y: int, z: int): nat
      reads this, Source(k)
    {
      SkyOf(Source(k), x, y, z)
    }

    ghost function BlockLightIn(k: ChunkPos, x: int, y: int, z: int): nat
      reads this, Source(k)
    {
      BlockLightOf(Source(k), x, y, z)
    }

    /** The state at a world position. */
    ghost function StateAt(x: int, y: int, z: int): uint16
      reads this, AllChunks()
    {
      StateIn(ChunkPos(ChunkCoord(x), ChunkCoord(z)), LocalCoord(x), y, LocalCoord(z))
    }

    ghost function SkyAt(x: int, y: int, z: int): nat
      reads this, AllChunks()
    {
      SkyIn(ChunkPos(ChunkCoord(x), ChunkCoord(z)), LocalCoord(x), y, LocalCoord(z))
    }

    ghost function BlockLightAt(x: int, y: int, z: int): nat
      reads this, AllChunks()
    {
      BlockLightIn(ChunkPos(ChunkCoord(x), ChunkCoord(z)), LocalCoord(x), y, LocalCoord(z))
    }

    /** Nothing the world reports has changed. */
    twostate predicate SameView()
      reads this, AllChunks()
    {
      (forall k, x, y, z :: InChunk(x, y, z) ==> StateIn(k, x, y, z) == old(StateIn(k, x, y, z)))
      && (forall k, x, y, z :: InLight(x, y, z) ==> SkyIn(k, x, y, z) == old(SkyIn(k, x, y, z)))
      && (forall k, x, y, z :: InLight(x, y, z) ==> BlockLightIn(k, x, y, z) == old(BlockLightIn(k, x, y, z)))
    }

    /** `LoadChunk`: the cached chunk if there is one, with nothing
      * changed; otherwise the provider's chunk, or else a newly generated
      * one, stored in the cache. What the world reports stays the same. */
    method LoadChunk(x: int, z: int) returns (c: Chunk)
      requires Valid()
      modifies this
      ensures Valid() && fresh(Repr - old(Repr)) && SameView()
      ensures chunks == old(chunks)[ChunkPos(x, z) := c] && GetChunk(x, z) == c
      ensures old(GetChunk(x, z)) != null ==> c == old(GetChunk(x, z)) && Repr == old(Repr)
      ensures old(GetChunk(x, z)) == null && ChunkPos(x, z) in provider ==>
        c == provider[ChunkPos(x, z)] && Repr == old(Repr)
      ensures old(GetChunk(x, z)) == null && ChunkPos(x, z) !in provider ==>
        fresh(c) && c.x == x && c.z == z && generator.IsFlat(c.Blocks)
    {
      var cached := GetChunk(x, z);
      if cached != null {
        return cached;
      }
      var k := ChunkPos(x, z);
      if k in provider {
        c := provider[k];
        CacheProvided(k);
        return;
      }
      c := generator.GenerateChunk(x, z);
      CacheGenerated(k, c);
    }

    /** `LoadChunk` storing the provider's chunk. */
    method CacheProvided(k: ChunkPos)
      requires Valid() && k !in chunks && k in provider
      modifies this
      ensures Valid() && Repr == old(Repr) && SameView()
      ensures chunks == old(chunks)[k := provider[k]]
    {
      chunks := chunks[k := provider[k]];
      assert forall k' :: Source(k') == old(Source(k'));
    }

    /** `LoadChunk` storing a newly generated chunk. */
    method CacheGenerated(k: ChunkPos, c: Chunk)
      requires Valid() && k !in chunks && k !in provider
      requires c.Valid() && c !in Repr && c.Repr !! Repr && generator.IsFlat(c.Blocks)
      requires c.skyLight == seq(NumLightSections, _ => None) && c.blockLight == seq(NumLightSections, _ => None)
      modifies this
      ensures Valid() && Repr == old(Repr) + {c} + c.Repr && SameView()
      ensures chunks == old(chunks)[k := c]
    {
      chunks := chunks[k := c];
      Repr := Repr + {c} + c.Repr;
      assert forall k' :: k' != k ==> Source(k') == old(Source(k'));
      forall k', x, y, z | InChunk(x, y, z)
        ensures StateIn(k', x, y, z) == old(StateIn(k', x, y, z))
      {
        if k' == k {
          assert BlockAt(c.Blocks, x, y, z) == generator.Layer(y);
        } else {
          assert Source(k') == old(Source(k'));
        }
      }
      forall k', x, y, z | InLight(x, y, z)
        ensures SkyIn(k', x, y, z) == old(SkyIn(k', x, y, z))
        ensures BlockLightIn(k', x, y, z) == old(BlockLightIn(k', x, y, z))
      {
        if k' != k {
          assert Source(k') == old(Source(k'));
        }
      }
    }

    /** `GetBlockState`: loads the chunk holding the position and reads
      * the state there. */
    method GetBlockState(x: int, y: int, z: int) returns (r: uint16)
      requires Valid() && 0 <= y < 256
      modifies this
      ensures Valid() && fresh(Repr - old(Repr)) && SameView()
      ensures r == old(StateAt(x, y, z))
      ensures GetChunk(ChunkCoord(x), ChunkCoord(z)) != null
    {
      var chunkX := ChunkCoord(x);
      var chunkZ := ChunkCoord(z);
      var c := LoadChunk(chunkX, chunkZ);
      r := c.GetBlockState(LocalCoord(x), y, LocalCoord(z));
    }

    /** `SetBlockState`: loads the chunk holding the position and sets the
      * state there; the world then reports the new state at that position
      * and the same as before everywhere else. */
    method SetBlockState(x: int, y: int, z: int, state: uint16)
      requires Valid() && 0 <= y < 256
      modifies Repr
      ensures Valid() && fresh(Repr - old(Repr))
      ensures forall x', y', z' :: 0 <= y' < 256 ==>
        StateAt(x', y', z') == if x' == x && y' == y && z' == z then state else old(StateAt(x', y', z'))
      ensures forall x', y', z' :: -16 <= y' < 272 ==>
        SkyAt(x', y', z') == old(SkyAt(x', y', z')) && BlockLightAt(x', y', z') == old(BlockLightAt(x', y', z'))
    {
      var chunkX := ChunkCoord(x);
      var chunkZ := ChunkCoord(z);
      var c := LoadChunk(chunkX, chunkZ);
      SetInChunk(ChunkPos(chunkX, chunkZ), c, LocalCoord(x), y, LocalCoord(z), state);
      forall x' | ChunkCoord(x') == chunkX && LocalCoord(x') == LocalCoord(x)
        ensures x' == x
      {
        CoordsDetermine(x, x');
      }
      forall z' | ChunkCoord(z') == chunkZ && LocalCoord(z') == LocalCoord(z)
        ensures z' == z
      {
        CoordsDetermine(z, z');
      }
    }

    /** The chunk part of `SetBlockState`: the state is stored in a cached
      * chunk, which changes what the world reports at that one position
      * only. */
    method SetInChunk(k: ChunkPos, c: Chunk, x: int, y: int, z: int, state: uint16)
      requires Valid() && k in chunks && chunks[k] == c && InChunk(x, y, z)
      modifies Repr
      ensures Valid() && fresh(Repr - old(Repr)) && chunks == old(chunks)
      ensures forall k', x', y', z' :: InChunk(x', y', z') ==>
        StateIn(k', x', y', z') == if k' == k && x' == x && y' == y && z' == z then state else old(StateIn(k', x', y', z'))
      ensures forall k', x', y', z' :: InLight(x', y', z') ==>
        SkyIn(k', x', y', z') == old(SkyIn(k', x', y', z')) && BlockLightIn(k', x', y', z') == old(BlockLightIn(k', x', y', z'))
    {
      assert Owned(Source(k));
      c.SetBlockState(x, y, z, state);
      Repr := Repr + c.Repr;
      forall k' | k' != k && Source(k') != null
        ensures Source(k') == old(Source(k')) && Source(k').Repr == old(Source(k').Repr)
        ensures Owned(Source(k')) && Source(k').Repr !! c.Repr
      {
        var d := Source(k');
        assert d == old(Source(k')) && c == old(Source(k));
        assert old(d.Repr) !! old(c.Repr);
        assert d in old(d.Repr);
      }
      forall k', x', y', z' | InChunk(x', y', z')
        ensures StateIn(k', x', y', z') == if k' == k && x' == x && y' == y && z' == z then state else old(StateIn(k', x', y', z'))
      {
        if k' == k {
          SetBlockThenGet(old(c.Blocks), x, y, z, state, x', y', z');
        } else if old(Source(k')) != null {
          assert old(Source(k')) in old(Source(k').Repr);
        }
      }
    }

    /** `GetSkyLight`: loads the chunk holding the position and reads its
      * sky light there. */
    method GetSkyLight(x: int, y: int, z: int) returns (r: int)
      requires Valid() && -16 <= y < 272
      modifies this
      ensures Valid() && fresh(Repr - old(Repr)) && SameView()
      ensures r == old(SkyAt(x, y, z))
      ensures GetChunk(ChunkCoord(x), ChunkCoord(z)) != null
    {
      var chunkX := ChunkCoord(x);
      var chunkZ := ChunkCoord(z);
      var c := LoadChunk(chunkX, chunkZ);
      r := c.GetSkyLight(LocalCoord(x), y, LocalCoord(z));
    }

    /** `SetSkyLight`: loads the chunk holding the position and stores the
      * low four bits of `light` as its sky light there; nothing else the
      * world reports changes. */
    method SetSkyLight(x: int, y: int, z: int, light: int)
      requires Valid() && -16 <= y < 272
      modifies Repr
      ensures Valid() && fresh(Repr - old(Repr))
      ensures forall x', y', z' :: -16 <= y' < 272 ==>
        SkyAt(x', y', z') == if x' == x && y' == y && z' == z then light % 16 else old(SkyAt(x', y', z'))
      ensures forall x', y', z' :: -16 <= y' < 272 ==> BlockLightAt(x', y', z') == old(BlockLightAt(x', y', z'))
      ensures forall x', y', z' :: 0 <= y' < 256 ==> StateAt(x', y', z') == old(StateAt(x', y', z'))
    {
      var chunkX := ChunkCoord(x);
      var chunkZ := ChunkCoord(z);
      var c := LoadChunk(chunkX, chunkZ);
      SkyLightInChunk(ChunkPos(chunkX, chunkZ), c, LocalCoord(x), y, LocalCoord(z), light);
      forall x' | ChunkCoord(x') == chunkX && LocalCoord(x') == LocalCoord(x)
        ensures x' == x
      {
        CoordsDetermine(x, x');
      }
      forall z' | ChunkCoord(z') == chunkZ && LocalCoord(z') == LocalCoord(z)
        ensures z' == z
      {
        CoordsDetermine(z, z');
      }
    }

    /** The chunk part of `SetSkyLight`: only the chunk's own sky light
      * changes, at one position. */
    method SkyLightInChunk(k: ChunkPos, c: Chunk, x: int, y: int, z: int, light: int)
      requires Valid() && k in chunks && chunks[k] == c && InLight(x, y, z)
      modifies c
      ensures Valid()
      ensures forall k', x', y', z' :: InLight(x', y', z') ==>
        SkyIn(k', x', y', z') == if k' == k && x' == x && y' == y && z' == z then light % 16 else old(SkyIn(k', x', y', z'))
      ensures forall k', x', y', z' :: InLight(x', y', z') ==> BlockLightIn(k', x', y', z') == old(BlockLightIn(k', x', y', z'))
      ensures forall k', x', y', z' :: InChunk(x', y', z') ==> StateIn(k', x', y', z') == old(StateIn(k', x', y', z'))
    {
      assert Owned(Source(k));
      c.SetSkyLight(x, y, z, light);
      forall k' | k' != k && Source(k') != null
        ensures Owned(Source(k')) && Source(k').Repr !! c.Repr
      {
        var d := Source(k');
        assert d == old(Source(k')) && c == old(Source(k));
        assert old(d.Repr) !! old(c.Repr);
        assert d in old(d.Repr);
      }
      forall k', x', y', z' | InLight(x', y', z')
        ensures SkyIn(k', x', y', z') == if k' == k && x' == x && y' == y && z' == z then light % 16 else old(SkyIn(k', x', y', z'))
      {
        if k' == k {
          SetLightThenGet(old(c.skyLight), x, y, z, light, x', y', z');
        }
      }
    }

    /** `GetBlockLight`: loads the chunk holding the position and reads its
      * block light there. */
    method GetBlockLight(x: int, y: int, z: int) returns (r: int)
      requires Valid() && -16 <= y < 272
      modifies this
      ensures Valid() && fresh(Repr - old(Repr)) && SameView()
      ensures r == old(BlockLightAt(x, y, z))
      ensures GetChunk(ChunkCoord(x), ChunkCoord(z)) != null
    {
      var chunkX := ChunkCoord(x);
      var chunkZ := ChunkCoord(z);
      var c := LoadChunk(chunkX, chunkZ);
      r := c.GetBlockLight(LocalCoord(x), y, LocalCoord(z));
    }

    /** `SetBlockLight`: loads the chunk holding the position and stores the
      * low four bits of `light` as its block light there; nothing else the
      * world reports changes. */
    method SetBlockLight(x: int, y: int, z: int, light: int)
      requires Valid() && -16 <= y < 272
      modifies Repr
      ensures Valid() && fresh(Repr - old(Repr))
      ensures forall x', y', z' :: -16 <= y' < 272 ==>
        BlockLightAt(x', y', z') == if x' == x && y' == y && z' == z then light % 16 else old(BlockLightAt(x', y', z'))
      ensures forall x', y', z' :: -16 <= y' < 272 ==> SkyAt(x', y', z') == old(SkyAt(x', y', z'))
      ensures forall x', y', z' :: 0 <= y' < 256 ==> StateAt(x', y', z') == old(StateAt(x', y', z'))
    {
      var chunkX := ChunkCoord(x);
      var chunkZ := ChunkCoord(z);
      var c := LoadChunk(chunkX, chunkZ);
      BlockLightInChunk(ChunkPos(chunkX, chunkZ), c, LocalCoord(x), y, LocalCoord(z), light);
      forall x' | ChunkCoord(x') == chunkX && LocalCoord(x') == LocalCoord(x)
        ensures x' == x
      {
        CoordsDetermine(x, x');
      }
      forall z' | ChunkCoord(z') == chunkZ && LocalCoord(z') == LocalCoord(z)
        ensures z' == z
      {
        CoordsDetermine(z, z');
      }
    }

    /** The chunk part of `SetBlockLight`: only the chunk's own block light
      * changes, at one position. */
    method BlockLightInChunk(k: ChunkPos, c: Chunk, x: int, y: int, z: int, light: int)
      requires Valid() && k in chunks && chunks[k] == c && InLight(x, y, z)
      modifies c
      ensures Valid()
      ensures forall k', x', y', z' :: InLight(x', y', z') ==>
        BlockLightIn(k', x', y', z') == if k' == k && x' == x && y' == y && z' == z then light % 16 else old(BlockLightIn(k', x', y', z'))
      ensures forall k', x', y', z' :: InLight(x', y', z') ==> SkyIn(k', x', y', z') == old(SkyIn(k', x', y', z'))
      ensures forall k', x', y', z' :: InChunk(x', y', z') ==> StateIn(k', x', y', z') == old(StateIn(k', x', y', z'))
    {
      assert Owned(Source(k));
      c.SetBlockLight(x, y, z, light);
      forall k' | k' != k && Source(k') != null
        ensures Owned(Source(k')) && Source(k').Repr !! c.Repr
      {
        var d := Source(k');
        assert d == old(Source(k')) && c == old(Source(k));
        assert old(d.Repr) !! old(c.Repr);
        assert d in old(d.Repr);
      }
      forall k', x', y', z' | InLight(x', y', z')
        ensures BlockLightIn(k', x', y', z') == if k' == k && x' == x && y' == y && z' == z then light % 16 else old(BlockLightIn(k', x', y', z'))
      {
        if k' == k {
          SetLightThenGet(old(c.blockLight), x, y, z, light, x', y', z');
        }
      }
    }
  }
}
