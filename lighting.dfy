/** Light propagation (minecraft/world/lighting.go): the per-cell sky- and
  * block-light rules, the flood fill that re-applies them through a queue
  * of pending cells, and `lightChunk`, which seeds a chunk's sky light
  * column by column before draining its queues.
  *
  * The block table is not part of this model: `types` maps a state id to
  * the light properties of its block. Each update names its chunk; the
  * world it belongs to is passed alongside. */
module Lighting {
  import opened Bytes
  import opened Wrappers
  import opened ChunkFormats
  import opened Chunks
  import opened Worlds

  /** The light properties of a block (`Block` in minecraft/block/block.go). */
  datatype BlockType = BlockType(transparent: bool, filterLight: int, emitLight: int)

  /** `lightUpdate`: a cell of a chunk whose light is to be recomputed. */
  datatype LightUpdate = LightUpdate(x: int, y: int, z: int, chunk: Chunk)

  /** Which of a chunk's two light arrays a rule works on. */
  datatype Channel = SkyChannel | BlockChannel

  /** The first-in first-out queue of pending updates. */
  class LightQueue {
    var items: seq<LightUpdate>

    constructor ()
      ensures items == []
    {
      items := [];
    }

    method Add(u: LightUpdate)
      modifies this
      ensures items == old(items) + [u]
    {
      items := items + [u];
    }

    /** Takes the oldest update; the queue panics when empty. */
    method Remove() returns (u: LightUpdate)
      requires items != []
      modifies this
      ensures [u] + items == old(items)
    {
      u := items[0];
      items := items[1..];
    }
  }

  // ---------------------------------------------------------------------
  // `max`

  /** The largest element of a non-empty list. */
  function Largest(nums: seq<int>): (r: int)
    requires nums != []
    ensures r in nums
    ensures forall k :: 0 <= k < |nums| ==> nums[k] <= r
  {
    if |nums| == 1 then nums[0]
    else
      var m := Largest(nums[1..]);
      assert forall k :: 1 <= k < |nums| ==> nums[k] == nums[1..][k - 1];
      if nums[0] > m then nums[0] else m
  }

  /** `max`: the first element, replaced by every larger one met. */
  method Max(nums: seq<int>) returns (largest: int)
    requires nums != []
    ensures largest == Largest(nums)
  {
    largest := nums[0];
    var i := 0;
    while i < |nums|
      invariant 0 <= i <= |nums|
      invariant largest in nums
      invariant forall k :: 0 <= k < i ==> nums[k] <= largest
    {
      if nums[i] > largest {
        largest := nums[i];
      }
      i := i + 1;
    }
  }

  // ---------------------------------------------------------------------
  // The rules

  /** The sky light `updateSkylight` gives a cell of type `t` whose six
    * neighbours hold `ns`: nothing through a block that filters all
    * light, otherwise the brightest neighbour (or 0) less the filter and
    * one more, floored at 0. */
  function SkyRule(t: BlockType, ns: seq<int>): (r: int)
    ensures r >= 0
    ensures t.filterLight == 15 ==> r == 0
    ensures t.filterLight >= 0 ==> r == 0 || r < Largest(ns + [0])
    ensures t.filterLight >= 0 && (forall k :: 0 <= k < |ns| ==> ns[k] <= 15) ==> r <= 14
  {
    if t.filterLight == 15 then 0
    else
      var light := Largest(ns + [0]) - t.filterLight - 1;
      if light < 0 then 0 else light
  }

  /** Next to full sunlight, a cell that filters nothing gets one less. */
  lemma SkyRuleBesideSun(t: BlockType, ns: seq<int>)
    requires t.filterLight == 0 && 15 in ns
    requires forall k :: 0 <= k < |ns| ==> ns[k] <= 15
    ensures SkyRule(t, ns) == 14
  {
    assert 15 in ns + [0];
  }

  /** The block light `updateBlockLight` gives a cell of type `t` whose six
    * neighbours hold `ns`: a block that filters any light shows its own
    * emission; otherwise the brightest neighbour (or 0) less one plus the
    * emission, clamped to 0..15. */
  function BlockRule(t: BlockType, ns: seq<int>): (r: int)
    ensures t.filterLight != 0 ==> r == t.emitLight
    ensures t.filterLight == 0 ==> 0 <= r <= 15
    ensures t.filterLight == 0 && t.emitLight == 0 ==> r == 0 || r < Largest(ns + [0])
    ensures t.filterLight == 0 && 0 <= t.emitLight && 0 <= Largest(ns + [0]) - 1 + t.emitLight <= 15
      ==> r == Largest(ns + [0]) - 1 + t.emitLight
  {
    if t.filterLight != 0 then t.emitLight
    else
      var light := Largest(ns + [0]) - 1 + t.emitLight;
      if light < 0 then 0 else if light > 15 then 15 else light
  }

  // ---------------------------------------------------------------------
  // Neighbours

  /** The light of a chunk's cell on one channel, as its `GetSkyLight` or
    * `GetBlockLight` reads it; 0 with no chunk. */
  function LightOf(d: Chunk?, ch: Channel, x: int, y: int, z: int): nat
    reads d
  {
    if d == null || !InLight(x, y, z) then 0
    else
      Light(if ch.SkyChannel? then d.skyLight else d.blockLight, x, y, z)
  }

  /** The light of neighbour `k` of cell `(x, y, z)` of `c`, for `k` from 0
    * to 5 in the order east, west, up, down, south, north. A neighbour
    * across the chunk's side is read from the world's cached chunk there,
    * 0 if there is none; above the top the value is `above`, below the
    * bottom 0. */
  function Neighbour(w: World, c: Chunk, ch: Channel, x: int, y: int, z: int, above: int, k: nat): (r: int)
    requires InChunk(x, y, z) && k < 6
    reads w, c, w.chunks.Values
    ensures 0 <= above <= 15 ==> 0 <= r <= 15
  {
    if k == 0 then
      (if x < 15 then LightOf(c, ch, x + 1, y, z) else LightOf(w.GetChunk(c.x + 1, c.z), ch, 0, y, z))
    else if k == 1 then
      (if x > 0 then LightOf(c, ch, x - 1, y, z) else LightOf(w.GetChunk(c.x - 1, c.z), ch, 15, y, z))
    else if k == 2 then
      (if y < 255 then LightOf(c, ch, x, y + 1, z) else above)
    else if k == 3 then
      (if y > 0 then LightOf(c, ch, x, y - 1, z) else 0)
    else if k == 4 then
      (if z < 15 then LightOf(c, ch, x, y, z + 1) else LightOf(w.GetChunk(c.x, c.z + 1), ch, x, y, 0))
    else
      (if z > 0 then LightOf(c, ch, x, y, z - 1) else LightOf(w.GetChunk(c.x, c.z - 1), ch, x, y, 15))
  }

  /** The six neighbours, in the order `max` is given them. */
  function Neighbours(w: World, c: Chunk, ch: Channel, x: int, y: int, z: int, above: int): (r: seq<int>)
    requires InChunk(x, y, z)
    reads w, c, w.chunks.Values
    ensures |r| == 6
  {
    [Neighbour(w, c, ch, x, y, z, above, 0), Neighbour(w, c, ch, x, y, z, above, 1),
     Neighbour(w, c, ch, x, y, z, above, 2), Neighbour(w, c, ch, x, y, z, above, 3),
     Neighbour(w, c, ch, x, y, z, above, 4), Neighbour(w, c, ch, x, y, z, above, 5)]
  }

  // ---------------------------------------------------------------------
  // Spreading

  function Abs(n: int): nat
  {
    if n < 0 then -n else n
  }

  /** Two cells share a face. */
  predicate Adjacent(x: int, y: int, z: int, x': int, y': int, z': int)
  {
    Abs(x - x') + Abs(y - y') + Abs(z - z') == 1
  }

  /** The update queued for neighbour `k` (see `Offset`) when it lies in
    * the chunk. */
  function Piece(c: Chunk, x: int, y: int, z: int, k: nat): seq<LightUpdate>
  {
    if k == 0 then (if x < 15 then [LightUpdate(x + 1, y, z, c)] else [])
    else if k == 1 then (if x > 0 then [LightUpdate(x - 1, y, z, c)] else [])
    else if k == 2 then (if y < 255 then [LightUpdate(x, y + 1, z, c)] else [])
    else if k == 3 then (if y > 0 then [LightUpdate(x, y - 1, z, c)] else [])
    else if k == 4 then (if z < 15 then [LightUpdate(x, y, z + 1, c)] else [])
    else (if z > 0 then [LightUpdate(x, y, z - 1, c)] else [])
  }

  /** The updates queued when a cell's light changes: its neighbours that
    * lie in the same chunk, in the order east, west, up, down, south,
    * north. */
  function Spread(c: Chunk, x: int, y: int, z: int): (r: seq<LightUpdate>)
    requires InChunk(x, y, z)
    ensures |r| <= 6
    ensures forall k :: 0 <= k < |r| ==>
      r[k].chunk == c && InChunk(r[k].x, r[k].y, r[k].z) && Adjacent(x, y, z, r[k].x, r[k].y, r[k].z)
  {
    SpreadFrom(c, x, y, z, 0)
  }

  /** The updates for neighbours `k` to 5. */
  function SpreadFrom(c: Chunk, x: int, y: int, z: int, k: nat): (r: seq<LightUpdate>)
    requires InChunk(x, y, z) && k <= 6
    ensures |r| <= 6 - k
    ensures forall j :: 0 <= j < |r| ==>
      r[j].chunk == c && InChunk(r[j].x, r[j].y, r[j].z) && Adjacent(x, y, z, r[j].x, r[j].y, r[j].z)
    decreases 6 - k
  {
    if k == 6 then [] else Piece(c, x, y, z, k) + SpreadFrom(c, x, y, z, k + 1)
  }

  /** Every neighbour in the chunk is queued. */
  lemma SpreadComplete(c: Chunk, x: int, y: int, z: int, x': int, y': int, z': int)
    requires InChunk(x, y, z) && InChunk(x', y', z') && Adjacent(x, y, z, x', y', z')
    ensures LightUpdate(x', y', z', c) in Spread(c, x, y, z)
  {
    var k := if x' == x + 1 then 0 else if x' == x - 1 then 1
      else if y' == y + 1 then 2 else if y' == y - 1 then 3
      else if z' == z + 1 then 4 else 5;
    SpreadFromHas(c, x, y, z, 0, k);
  }

  /** The pieces of `SpreadFrom(k)` are the pieces from `k` on. */
  lemma {:induction false} SpreadFromHas(c: Chunk, x: int, y: int, z: int, k: nat, j: nat)
    requires InChunk(x, y, z) && k <= j < 6
    ensures forall u :: u in Piece(c, x, y, z, j) ==> u in SpreadFrom(c, x, y, z, k)
    decreases j - k
  {
    if k < j {
      SpreadFromHas(c, x, y, z, k + 1, j);
    }
  }

  /** `updateSkylight`'s and `updateBlockLight`'s six conditional `Add`s. */
  method Enqueue(q: LightQueue, c: Chunk, x: int, y: int, z: int)
    requires InChunk(x, y, z)
    modifies q
    ensures q.items == old(q.items) + Spread(c, x, y, z)
  {
    EnqueueNeighbour(q, c, x, y, z, 0);
    EnqueueNeighbour(q, c, x, y, z, 1);
    EnqueueNeighbour(q, c, x, y, z, 2);
    EnqueueNeighbour(q, c, x, y, z, 3);
    EnqueueNeighbour(q, c, x, y, z, 4);
    EnqueueNeighbour(q, c, x, y, z, 5);
  }

  /** The `Add` of neighbour `k`, made when it lies in the chunk. */
  method EnqueueNeighbour(q: LightQueue, c: Chunk, x: int, y: int, z: int, k: nat)
    requires InChunk(x, y, z) && k < 6
    modifies q
    ensures q.items + SpreadFrom(c, x, y, z, k + 1) == old(q.items) + SpreadFrom(c, x, y, z, k)
  {
    ghost var start := q.items;
    if k == 0 {
      if x < 15 {
        q.Add(LightUpdate(x + 1, y, z, c));
      }
    } else if k == 1 {
      if x > 0 {
        q.Add(LightUpdate(x - 1, y, z, c));
      }
    } else if k == 2 {
      if y < 255 {
        q.Add(LightUpdate(x, y + 1, z, c));
      }
    } else if k == 3 {
      if y > 0 {
        q.Add(LightUpdate(x, y - 1, z, c));
      }
    } else if k == 4 {
      if z < 15 {
        q.Add(LightUpdate(x, y, z + 1, c));
      }
    } else {
      if z > 0 {
        q.Add(LightUpdate(x, y, z - 1, c));
      }
    }
    assert q.items == start + Piece(c, x, y, z, k);
    Append3(start, Piece(c, x, y, z, k), SpreadFrom(c, x, y, z, k + 1));
  }

  // ---------------------------------------------------------------------
  // One update

  /** A light update changed nothing but the chunk's light. */
  twostate predicate OnlyLight(c: Chunk)
    reads c
  {
    c.Blocks == old(c.Blocks) && c.sections == old(c.sections) && c.biomes == old(c.biomes)
    && c.Repr == old(c.Repr)
  }

  /** `updateSkylight`: the cell takes the value of the sky rule; if that
    * differs from what it held, the value is stored and its neighbours
    * in the chunk are queued. */
  method UpdateSkylight(q: LightQueue, w: World, types: uint16 -> BlockType, c: Chunk, x: int, y: int, z: int)
    requires c.Valid() && InChunk(x, y, z) && q !in c.Repr
    modifies q, c
    ensures c.Valid() && OnlyLight(c) && c.blockLight == old(c.blockLight)
    ensures Stored(q, c, SkyChannel, x, y, z, old(SkyRule(types(BlockAt(c.Blocks, x, y, z)), Neighbours(w, c, SkyChannel, x, y, z, 15))))
  {
    var t := types(c.GetBlockState(x, y, z));
    var light := 0;
    if t.filterLight == 15 {
      light := 0;
    } else {
      var ns := Neighbours(w, c, SkyChannel, x, y, z, 15);
      var brightest := Max(ns + [0]);
      light := brightest - t.filterLight - 1;
      if light < 0 {
        light := 0;
      }
    }
    Store(q, c, SkyChannel, x, y, z, light);
  }

  /** `updateBlockLight` as written: 15 is counted above the top of the
    * world (see `BlockTopAsWritten`). */
  method UpdateBlockLight(q: LightQueue, w: World, types: uint16 -> BlockType, c: Chunk, x: int, y: int, z: int)
    requires c.Valid() && InChunk(x, y, z) && q !in c.Repr
    modifies q, c
    ensures c.Valid() && OnlyLight(c) && c.skyLight == old(c.skyLight)
    ensures Stored(q, c, BlockChannel, x, y, z, old(BlockRule(types(BlockAt(c.Blocks, x, y, z)), Neighbours(w, c, BlockChannel, x, y, z, 15))))
  {
    UpdateBlockLightAbove(q, w, types, c, x, y, z, 15);
  }

  /** `updateBlockLight` with nothing counted above the top of the world,
    * so that block light only comes from emitters (see
    * `BlockDarkStaysDark`); the drain uses this one. */
  method UpdateBlockLightFixed(q: LightQueue, w: World, types: uint16 -> BlockType, c: Chunk, x: int, y: int, z: int)
    requires c.Valid() && InChunk(x, y, z) && q !in c.Repr
    modifies q, c
    ensures c.Valid() && OnlyLight(c) && c.skyLight == old(c.skyLight)
    ensures Stored(q, c, BlockChannel, x, y, z, old(BlockRule(types(BlockAt(c.Blocks, x, y, z)), Neighbours(w, c, BlockChannel, x, y, z, 0))))
  {
    UpdateBlockLightAbove(q, w, types, c, x, y, z, 0);
  }

  /** The body of `updateBlockLight`, with the light counted above the top
    * of the world as a parameter: the cell takes the value of the block
    * rule; if that differs from what it held, the value is stored and its
    * neighbours in the chunk are queued. */
  method UpdateBlockLightAbove(q: LightQueue, w: World, types: uint16 -> BlockType, c: Chunk, x: int, y: int, z: int, above: int)
    requires c.Valid() && InChunk(x, y, z) && q !in c.Repr
    modifies q, c
    ensures c.Valid() && OnlyLight(c) && c.skyLight == old(c.skyLight)
    ensures Stored(q, c, BlockChannel, x, y, z, old(BlockRule(types(BlockAt(c.Blocks, x, y, z)), Neighbours(w, c, BlockChannel, x, y, z, above))))
  {
    var t := types(c.GetBlockState(x, y, z));
    var light := 0;
    if t.filterLight != 0 {
      light := t.emitLight;
    } else {
      var ns := Neighbours(w, c, BlockChannel, x, y, z, above);
      var brightest := Max(ns + [0]);
      light := brightest - 1 + t.emitLight;
      if light < 0 {
        light := 0;
      } else if light > 15 {
        light := 15;
      }
    }
    Store(q, c, BlockChannel, x, y, z, light);
  }

  /** The light array of a channel. */
  function Buffers(c: Chunk, ch: Channel): LightBuffers
    reads c
  {
    if ch.SkyChannel? then c.skyLight else c.blockLight
  }

  /** After an update computed `light` for the cell: the cell holds it (to
    * four bits); if it held something else before, exactly that was
    * stored and the neighbours in the chunk were queued, and otherwise
    * nothing changed. */
  twostate predicate Stored(q: LightQueue, c: Chunk, ch: Channel, x: int, y: int, z: int, light: int)
    requires InChunk(x, y, z)
    reads q, c
  {
    Light(Buffers(c, ch), x, y, z) == light % 16
    && if old(Light(Buffers(c, ch), x, y, z)) != light
       then Buffers(c, ch) == SetLight(old(Buffers(c, ch)), x, y, z, light) && q.items == old(q.items) + Spread(c, x, y, z)
       else Buffers(c, ch) == old(Buffers(c, ch)) && q.items == old(q.items)
  }

  /** The end of both updates: store a changed value and queue the
    * neighbours. */
  method Store(q: LightQueue, c: Chunk, ch: Channel, x: int, y: int, z: int, light: int)
    requires c.Valid() && InChunk(x, y, z) && q !in c.Repr
    modifies q, c
    ensures c.Valid() && OnlyLight(c)
    ensures ch.SkyChannel? ==> c.blockLight == old(c.blockLight)
    ensures ch.BlockChannel? ==> c.skyLight == old(c.skyLight)
    ensures Stored(q, c, ch, x, y, z, light)
  {
    var current := LightOf(c, ch, x, y, z);
    if current != light {
      SetLightThenGet(Buffers(c, ch), x, y, z, light, x, y, z);
      if ch.SkyChannel? {
        c.SetSkyLight(x, y, z, light);
      } else {
        c.SetBlockLight(x, y, z, light);
      }
      label Set:
      Enqueue(q, c, x, y, z);
      ValidKept@Set(c);
    }
  }

  // ---------------------------------------------------------------------
  // The top of the world in `updateBlockLight`

  /** No block light anywhere in the chunk or in the world's chunks. */
  ghost predicate Dark(w: World, c: Chunk)
    reads w, c, w.chunks.Values
  {
    (forall x, y, z :: InLight(x, y, z) ==> LightOf(c, BlockChannel, x, y, z) == 0)
    && forall k, x, y, z :: k in w.chunks && InLight(x, y, z) ==> LightOf(w.chunks[k], BlockChannel, x, y, z) == 0
  }

  /** As written, `updateBlockLight` counts 15 above the top of the world,
    * so a non-emitting cell in the top layer of a world without any block
    * light gets 14. */
  lemma BlockTopAsWritten(w: World, c: Chunk, t: BlockType, x: int, z: int)
    requires InColumn(x, z) && Dark(w, c) && t.filterLight == 0 && t.emitLight == 0
    ensures BlockRule(t, Neighbours(w, c, BlockChannel, x, 255, z, 15)) == 14
  {
    var ns := Neighbours(w, c, BlockChannel, x, 255, z, 15);
    assert ns[2] == 15 && 15 in ns + [0];
  }

  /** With nothing counted above the top, a non-emitting cell of a world
    * without any block light stays dark, at every height. */
  lemma BlockDarkStaysDark(w: World, c: Chunk, t: BlockType, x: int, y: int, z: int)
    requires InChunk(x, y, z) && Dark(w, c) && t.filterLight == 0 && t.emitLight == 0
    ensures BlockRule(t, Neighbours(w, c, BlockChannel, x, y, z, 0)) == 0
  {
    var ns := Neighbours(w, c, BlockChannel, x, y, z, 0);
    assert forall k :: 0 <= k < |ns + [0]| ==> (ns + [0])[k] == 0;
  }

  // ---------------------------------------------------------------------
  // Draining

  /** Every queued update is a cell of one of the chunks `S`. */
  ghost predicate Pending(items: seq<LightUpdate>, S: set<Chunk>)
  {
    forall k :: 0 <= k < |items| ==> items[k].chunk in S && InChunk(items[k].x, items[k].y, items[k].z)
  }

  /** The chunks a drain may change keep their invariant, and none of them
    * holds a queue or another of them. */
  ghost predicate ChunksOk(S: set<Chunk>, qs: set<LightQueue>)
    reads S, set d, o | d in S && o in d.Repr :: o
  {
    forall d :: d in S ==>
      d.Valid() && (forall q :: q in qs ==> q !in d.Repr) && (forall d' :: d' in S && d' != d ==> d' !in d.Repr)
  }

  /** The sky-light loop of `ProcessLightUpdates` and `lightChunk`: updates
    * are taken oldest first until the queue is empty. Whether it empties
    * is not decided here, so at most `fuel` updates are applied; `done`
    * says that the queue emptied. */
  method DrainSkyLight(q: LightQueue, w: World, types: uint16 -> BlockType, ghost S: set<Chunk>, ghost qs: set<LightQueue>, fuel: nat)
    returns (done: bool)
    requires q in qs && Pending(q.items, S) && ChunksOk(S, qs)
    modifies q, S
    ensures Pending(q.items, S) && ChunksOk(S, qs)
    ensures done <==> q.items == []
    ensures forall d :: d in S ==> OnlyLight(d) && d.blockLight == old(d.blockLight)
  {
    var steps := 0;
    while q.items != [] && steps < fuel
      invariant Pending(q.items, S) && ChunksOk(S, qs)
      invariant forall d :: d in S ==> OnlyLight(d) && d.blockLight == old(d.blockLight)
      decreases fuel - steps
    {
      NextUpdate(q, w, types, SkyChannel, S, qs);
      steps := steps + 1;
    }
    done := q.items == [];
  }

  /** The block-light loop of `ProcessLightUpdates` and `lightChunk`. */
  method DrainBlockLight(q: LightQueue, w: World, types: uint16 -> BlockType, ghost S: set<Chunk>, ghost qs: set<LightQueue>, fuel: nat)
    returns (done: bool)
    requires q in qs && Pending(q.items, S) && ChunksOk(S, qs)
    modifies q, S
    ensures Pending(q.items, S) && ChunksOk(S, qs)
    ensures done <==> q.items == []
    ensures forall d :: d in S ==> OnlyLight(d) && d.skyLight == old(d.skyLight)
  {
    var steps := 0;
    while q.items != [] && steps < fuel
      invariant Pending(q.items, S) && ChunksOk(S, qs)
      invariant forall d :: d in S ==> OnlyLight(d) && d.skyLight == old(d.skyLight)
      decreases fuel - steps
    {
      NextUpdate(q, w, types, BlockChannel, S, qs);
      steps := steps + 1;
    }
    done := q.items == [];
  }

  /** One turn of a drain loop: the oldest update is removed and applied. */
  method NextUpdate(q: LightQueue, w: World, types: uint16 -> BlockType, ch: Channel, ghost S: set<Chunk>, ghost qs: set<LightQueue>)
    requires q in qs && q.items != [] && Pending(q.items, S) && ChunksOk(S, qs)
    modifies q, S
    ensures Pending(q.items, S) && ChunksOk(S, qs)
    ensures forall d :: d in S ==> OnlyLight(d)
    ensures ch.SkyChannel? ==> forall d :: d in S ==> d.blockLight == old(d.blockLight)
    ensures ch.BlockChannel? ==> forall d :: d in S ==> d.skyLight == old(d.skyLight)
  {
    ghost var before := q.items;
    var u := q.Remove();
    assert u == before[0] && q.items == before[1..];
    ghost var rest := q.items;
    Apply(q, w, types, ch, u, S, qs);
    if q.items != rest {
      PendingSpread(rest, u.chunk, u.x, u.y, u.z, S);
    }
  }

  /** The queued neighbours of a pending cell are pending. */
  lemma PendingSpread(rest: seq<LightUpdate>, c: Chunk, x: int, y: int, z: int, S: set<Chunk>)
    requires Pending(rest, S) && c in S && InChunk(x, y, z)
    ensures Pending(rest + Spread(c, x, y, z), S)
  {
  }

  /** The update of one cell of a chunk of `S`, which keeps `ChunksOk`. */
  method Apply(q: LightQueue, w: World, types: uint16 -> BlockType, ch: Channel, u: LightUpdate, ghost S: set<Chunk>, ghost qs: set<LightQueue>)
    requires q in qs && u.chunk in S && InChunk(u.x, u.y, u.z) && ChunksOk(S, qs)
    modifies q, S
    ensures ChunksOk(S, qs)
    ensures q.items == old(q.items) || q.items == old(q.items) + Spread(u.chunk, u.x, u.y, u.z)
    ensures forall d :: d in S ==> OnlyLight(d)
    ensures ch.SkyChannel? ==> forall d :: d in S ==> d.blockLight == old(d.blockLight)
    ensures ch.BlockChannel? ==> forall d :: d in S ==> d.skyLight == old(d.skyLight)
  {
    var c := u.chunk;
    if ch.SkyChannel? {
      UpdateSkylight(q, w, types, c, u.x, u.y, u.z);
    } else {
      UpdateBlockLightFixed(q, w, types, c, u.x, u.y, u.z);
    }
    forall d | d in S
      ensures d.Valid() && OnlyLight(d)
      ensures ch.SkyChannel? ==> d.blockLight == old(d.blockLight)
      ensures ch.BlockChannel? ==> d.skyLight == old(d.skyLight)
    {
      if d != c {
        ValidKept(d);
      }
    }
  }

  twostate lemma ValidKept(d: Chunk)
    requires old(d.Valid()) && unchanged(d) && unchanged(d.Repr)
    ensures d.Valid()
  {
  }

  // ---------------------------------------------------------------------
  // The global queues

  /** `QueueLightUpdate`: the cell is queued for a block-light update. */
  method QueueLightUpdate(blockQueue: LightQueue, c: Chunk, x: int, y: int, z: int)
    modifies blockQueue
    ensures blockQueue.items == old(blockQueue.items) + [LightUpdate(x, y, z, c)]
  {
    blockQueue.Add(LightUpdate(x, y, z, c));
  }

  /** `ProcessLightUpdates`: the block-light queue is drained completely
    * before the sky-light queue is touched. With a budget of `fuel`
    * updates per queue, a block drain that does not finish leaves the sky
    * queue and all sky light as they were. */
  method ProcessLightUpdates(blockQueue: LightQueue, skyQueue: LightQueue, w: World, types: uint16 -> BlockType,
                             ghost S: set<Chunk>, fuel: nat) returns (done: bool)
    requires blockQueue != skyQueue && Pending(blockQueue.items, S) && Pending(skyQueue.items, S)
    requires ChunksOk(S, {blockQueue, skyQueue})
    modifies blockQueue, skyQueue, S
    ensures ChunksOk(S, {blockQueue, skyQueue}) && forall d :: d in S ==> OnlyLight(d)
    ensures done <==> blockQueue.items == [] && skyQueue.items == []
    ensures blockQueue.items != [] ==>
      skyQueue.items == old(skyQueue.items) && forall d :: d in S ==> d.skyLight == old(d.skyLight)
  {
    var blockDone := DrainBlockLight(blockQueue, w, types, S, {blockQueue, skyQueue}, fuel);
    if !blockDone {
      return false;
    }
    done := DrainSkyLight(skyQueue, w, types, S, {blockQueue, skyQueue}, fuel);
  }

  // ---------------------------------------------------------------------
  // `lightChunk`

  /** Opaque emitters go to the block-light queue, transparent blocks to
    * the sky-light queue. */
  predicate Selected(t: BlockType, emitters: bool)
  {
    if emitters then !t.transparent && t.emitLight > 0 else t.transparent
  }

  /** What the walk queues for cell `(x, y, z)`: the cell, if its block is
    * selected. */
  function Queued(c: Chunk, types: uint16 -> BlockType, blocks: seq<Option<seq<uint16>>>, x: int, y: int, z: int, emitters: bool): seq<LightUpdate>
    requires ColumnShaped(blocks) && InChunk(x, y, z)
  {
    if Selected(types(BlockAt(blocks, x, y, z)), emitters) then [LightUpdate(x, y, z, c)] else []
  }

  /** What the walk down column `(x, z)` has queued once it stands at
    * height `y`: the cells from 254 down to `y + 1`, in that order. */
  ghost function CellsQueued(c: Chunk, types: uint16 -> BlockType, blocks: seq<Option<seq<uint16>>>, x: int, z: int, y: int, emitters: bool): seq<LightUpdate>
    requires ColumnShaped(blocks) && InColumn(x, z) && -1 <= y <= 254
    decreases 254 - y
  {
    if y == 254 then []
    else CellsQueued(c, types, blocks, x, z, y + 1, emitters) + Queued(c, types, blocks, x, y + 1, z, emitters)
  }

  /** What the walk has queued from the columns `(x, 0)` to `(x, z - 1)`. */
  ghost function ColumnsQueued(c: Chunk, types: uint16 -> BlockType, blocks: seq<Option<seq<uint16>>>, x: int, z: int, emitters: bool): seq<LightUpdate>
    requires ColumnShaped(blocks) && 0 <= x < 16 && 0 <= z <= 16
  {
    if z == 0 then []
    else ColumnsQueued(c, types, blocks, x, z - 1, emitters) + CellsQueued(c, types, blocks, x, z - 1, -1, emitters)
  }

  /** What the walk has queued from the rows of columns `0` to `x - 1`. */
  ghost function RowsQueued(c: Chunk, types: uint16 -> BlockType, blocks: seq<Option<seq<uint16>>>, x: int, emitters: bool): seq<LightUpdate>
    requires ColumnShaped(blocks) && 0 <= x <= 16
  {
    if x == 0 then []
    else RowsQueued(c, types, blocks, x - 1, emitters) + ColumnsQueued(c, types, blocks, x - 1, 16, emitters)
  }

  /** The cell is one `lightChunk` queues: below the top layer and
    * selected. */
  ghost predicate QueuedCell(c: Chunk, types: uint16 -> BlockType, blocks: seq<Option<seq<uint16>>>, u: LightUpdate, emitters: bool)
    requires ColumnShaped(blocks)
  {
    u.chunk == c && InChunk(u.x, u.y, u.z) && u.y < 255 && Selected(types(BlockAt(blocks, u.x, u.y, u.z)), emitters)
  }

  lemma {:induction false} CellsQueuedHas(c: Chunk, types: uint16 -> BlockType, blocks: seq<Option<seq<uint16>>>, x: int, z: int, y: int, emitters: bool, u: LightUpdate)
    requires ColumnShaped(blocks) && InColumn(x, z) && -1 <= y <= 254
    ensures u in CellsQueued(c, types, blocks, x, z, y, emitters) <==>
      QueuedCell(c, types, blocks, u, emitters) && u.x == x && u.z == z && u.y > y
    decreases 254 - y
  {
    if y < 254 {
      CellsQueuedHas(c, types, blocks, x, z, y + 1, emitters, u);
    }
  }

  lemma {:induction false} ColumnsQueuedHas(c: Chunk, types: uint16 -> BlockType, blocks: seq<Option<seq<uint16>>>, x: int, z: int, emitters: bool, u: LightUpdate)
    requires ColumnShaped(blocks) && 0 <= x < 16 && 0 <= z <= 16
    ensures u in ColumnsQueued(c, types, blocks, x, z, emitters) <==>
      QueuedCell(c, types, blocks, u, emitters) && u.x == x && u.z < z
  {
    if z > 0 {
      ColumnsQueuedHas(c, types, blocks, x, z - 1, emitters, u);
      CellsQueuedHas(c, types, blocks, x, z - 1, -1, emitters, u);
    }
  }

  lemma {:induction false} RowsQueuedHas(c: Chunk, types: uint16 -> BlockType, blocks: seq<Option<seq<uint16>>>, x: int, emitters: bool, u: LightUpdate)
    requires ColumnShaped(blocks) && 0 <= x <= 16
    ensures u in RowsQueued(c, types, blocks, x, emitters) <==> QueuedCell(c, types, blocks, u, emitters) && u.x < x
  {
    if x > 0 {
      RowsQueuedHas(c, types, blocks, x - 1, emitters, u);
      ColumnsQueuedHas(c, types, blocks, x - 1, 16, emitters, u);
    }
  }

  /** The queues `lightChunk` fills: the block-light queue holds exactly
    * the opaque emitters below the top layer, the sky-light queue exactly
    * the transparent blocks there. */
  lemma WalkedCells(c: Chunk, types: uint16 -> BlockType, blocks: seq<Option<seq<uint16>>>, emitters: bool, u: LightUpdate)
    requires ColumnShaped(blocks)
    ensures u in RowsQueued(c, types, blocks, 16, emitters) <==> QueuedCell(c, types, blocks, u, emitters)
  {
    RowsQueuedHas(c, types, blocks, 16, emitters, u);
  }

  /** Everything the walk queues is pending work on the chunk. */
  lemma WalkedPending(c: Chunk, types: uint16 -> BlockType, blocks: seq<Option<seq<uint16>>>, emitters: bool)
    requires ColumnShaped(blocks)
    ensures Pending(RowsQueued(c, types, blocks, 16, emitters), {c})
  {
    var r := RowsQueued(c, types, blocks, 16, emitters);
    forall k | 0 <= k < |r|
      ensures r[k].chunk in {c} && InChunk(r[k].x, r[k].y, r[k].z)
    {
      WalkedCells(c, types, blocks, emitters, r[k]);
    }
  }

  /** `currFilter` once the walk down column `(x, z)` has passed height
    * `y`: 15 at the top; each block below takes its filter off while
    * anything is left, never going below 0. */
  ghost function ColumnFilter(types: uint16 -> BlockType, blocks: seq<Option<seq<uint16>>>, x: int, z: int, y: int): (r: int)
    requires ColumnShaped(blocks) && InColumn(x, z) && 0 <= y <= 255
    ensures r >= 0
    decreases 255 - y
  {
    if y == 255 then 15
    else
      var f := ColumnFilter(types, blocks, x, z, y + 1);
      if f > 0 then
        var g := f - types(BlockAt(blocks, x, y, z)).filterLight;
        if g < 0 then 0 else g
      else f
  }

  /** Once the filter is used up, the rest of the column is dark. */
  lemma {:induction false} ColumnFilterDark(types: uint16 -> BlockType, blocks: seq<Option<seq<uint16>>>, x: int, z: int, y: int, y': int)
    requires ColumnShaped(blocks) && InColumn(x, z) && 0 <= y' <= y <= 255
    requires ColumnFilter(types, blocks, x, z, y) == 0
    ensures ColumnFilter(types, blocks, x, z, y') == 0
    decreases y - y'
  {
    if y' < y {
      ColumnFilterDark(types, blocks, x, z, y, y' + 1);
      assert ColumnFilter(types, blocks, x, z, y' + 1) == 0;
    }
  }

  /** Under blocks that filter nothing the column keeps the full 15. */
  lemma {:induction false} ColumnFilterOpen(types: uint16 -> BlockType, blocks: seq<Option<seq<uint16>>>, x: int, z: int, y: int)
    requires ColumnShaped(blocks) && InColumn(x, z) && 0 <= y <= 255
    requires forall y' :: y <= y' < 255 ==> types(BlockAt(blocks, x, y', z)).filterLight == 0
    ensures ColumnFilter(types, blocks, x, z, y) == 15
    decreases 255 - y
  {
    if y < 255 {
      ColumnFilterOpen(types, blocks, x, z, y + 1);
    }
  }

  /** With filters that are never negative, the filter only falls going
    * down and stays within 0..15. */
  lemma {:induction false} ColumnFilterFalls(types: uint16 -> BlockType, blocks: seq<Option<seq<uint16>>>, x: int, z: int, y: int)
    requires ColumnShaped(blocks) && InColumn(x, z) && 0 <= y < 255
    requires forall y' :: y <= y' < 255 ==> types(BlockAt(blocks, x, y', z)).filterLight >= 0
    ensures ColumnFilter(types, blocks, x, z, y) <= ColumnFilter(types, blocks, x, z, y + 1) <= 15
    decreases 255 - y
  {
    if y + 1 < 255 {
      ColumnFilterFalls(types, blocks, x, z, y + 1);
    }
  }

  /** The sky light after the walk: every cell of the world's height holds
    * what the walk leaves there; the cells outside it, which light arrays
    * also cover, keep what they held before (`sky0`). */
  ghost predicate SkyWalked(sky: LightBuffers, blocks: seq<Option<seq<uint16>>>, types: uint16 -> BlockType, sky0: LightBuffers)
  {
    ColumnShaped(blocks)
    && forall x', y', z' :: InLight(x', y', z') ==>
      Light(sky, x', y', z') == if 0 <= y' < 256 then WalkSky(types, blocks, x', y', z') else Light(sky0, x', y', z')
  }

  /** The sky light the walk leaves in a cell: 15 at the top, below it the
    * filter, of which the light array keeps four bits. */
  ghost function WalkSky(types: uint16 -> BlockType, blocks: seq<Option<seq<uint16>>>, x: int, y: int, z: int): int
    requires ColumnShaped(blocks) && InChunk(x, y, z)
  {
    if y == 255 then 15 else ColumnFilter(types, blocks, x, z, y) % 16
  }

  /** The walk has set cell `(x', y', z')`, standing at height `y` of
    * column `(x, z)`. */
  predicate Lit(x: int, z: int, y: int, x': int, y': int, z': int)
  {
    0 <= y' < 256 && (x' < x || (x' == x && z' < z) || (x' == x && z' == z && y' > y))
  }

  /** The sky light while the walk stands at height `y` of column `(x, z)`:
    * the cells it has set hold their walk values, the others what they
    * held before (`sky0`). */
  ghost predicate Seeded(sky: LightBuffers, blocks: seq<Option<seq<uint16>>>, types: uint16 -> BlockType, sky0: LightBuffers, x: int, z: int, y: int)
  {
    ColumnShaped(blocks)
    && forall x', y', z' :: InLight(x', y', z') ==>
      Light(sky, x', y', z') == if Lit(x, z, y, x', y', z') then WalkSky(types, blocks, x', y', z') else Light(sky0, x', y', z')
  }

  /** Storing 15 at the top of column `(x, z)` begins its walk. */
  lemma SeedTop(sky: LightBuffers, blocks: seq<Option<seq<uint16>>>, types: uint16 -> BlockType, sky0: LightBuffers, x: int, z: int)
    requires InColumn(x, z) && Seeded(sky, blocks, types, sky0, x, z, 255)
    ensures Seeded(SetLight(sky, x, 255, z, 15), blocks, types, sky0, x, z, 254)
  {
    forall x', y', z' | InLight(x', y', z')
      ensures Light(SetLight(sky, x, 255, z, 15), x', y', z') == if Lit(x, z, 254, x', y', z') then WalkSky(types, blocks, x', y', z') else Light(sky0, x', y', z')
    {
      SetLightThenGet(sky, x, 255, z, 15, x', y', z');
    }
  }

  /** Storing the filter at height `y` moves the walk one cell down. */
  lemma SeedStep(sky: LightBuffers, blocks: seq<Option<seq<uint16>>>, types: uint16 -> BlockType, sky0: LightBuffers, x: int, y: int, z: int)
    requires InChunk(x, y, z) && y < 255 && Seeded(sky, blocks, types, sky0, x, z, y)
    ensures Seeded(SetLight(sky, x, y, z, ColumnFilter(types, blocks, x, z, y)), blocks, types, sky0, x, z, y - 1)
  {
    var f := ColumnFilter(types, blocks, x, z, y);
    forall x', y', z' | InLight(x', y', z')
      ensures Light(SetLight(sky, x, y, z, f), x', y', z') == if Lit(x, z, y - 1, x', y', z') then WalkSky(types, blocks, x', y', z') else Light(sky0, x', y', z')
    {
      SetLightThenGet(sky, x, y, z, f, x', y', z');
    }
  }

  /** A finished column is the next one begun. */
  lemma NextColumn(sky: LightBuffers, blocks: seq<Option<seq<uint16>>>, types: uint16 -> BlockType, sky0: LightBuffers, x: int, z: int)
    requires Seeded(sky, blocks, types, sky0, x, z, -1)
    ensures Seeded(sky, blocks, types, sky0, x, z + 1, 255)
  {
    forall x', y', z' | InLight(x', y', z')
      ensures Lit(x, z, -1, x', y', z') == Lit(x, z + 1, 255, x', y', z')
    {
    }
  }

  /** A finished row of columns is the next row begun. */
  lemma NextRow(sky: LightBuffers, blocks: seq<Option<seq<uint16>>>, types: uint16 -> BlockType, sky0: LightBuffers, x: int)
    requires Seeded(sky, blocks, types, sky0, x, 16, 255)
    ensures Seeded(sky, blocks, types, sky0, x + 1, 0, 255)
  {
    forall x', y', z' | InLight(x', y', z')
      ensures Lit(x, 16, 255, x', y', z') == Lit(x + 1, 0, 255, x', y', z')
    {
    }
  }

  /** The column and queue loops of `lightChunk`: every column gets 15 at
    * the top and the running filter below; the cells are queued as they
    * are passed. */
  method SeedLight(c: Chunk, types: uint16 -> BlockType) returns (blockQueue: LightQueue, skyQueue: LightQueue)
    requires c.Valid()
    modifies c
    ensures fresh(blockQueue) && fresh(skyQueue) && blockQueue != skyQueue
    ensures c.Valid() && OnlyLight(c) && c.blockLight == old(c.blockLight)
    ensures SkyWalked(c.skyLight, c.Blocks, types, old(c.skyLight))
    ensures blockQueue.items == RowsQueued(c, types, c.Blocks, 16, true)
    ensures skyQueue.items == RowsQueued(c, types, c.Blocks, 16, false)
  {
    blockQueue := new LightQueue();
    skyQueue := new LightQueue();
    ghost var sky0 := c.skyLight;
    var x := 0;
    while x < 16
      invariant 0 <= x <= 16
      invariant c.Valid() && OnlyLight(c) && c.blockLight == old(c.blockLight)
      invariant Seeded(c.skyLight, c.Blocks, types, sky0, x, 0, 255)
      invariant blockQueue.items == RowsQueued(c, types, c.Blocks, x, true)
      invariant skyQueue.items == RowsQueued(c, types, c.Blocks, x, false)
    {
      var z := 0;
      while z < 16
        invariant 0 <= z <= 16
        invariant c.Valid() && OnlyLight(c) && c.blockLight == old(c.blockLight)
        invariant Seeded(c.skyLight, c.Blocks, types, sky0, x, z, 255)
        invariant blockQueue.items == RowsQueued(c, types, c.Blocks, x, true) + ColumnsQueued(c, types, c.Blocks, x, z, true)
        invariant skyQueue.items == RowsQueued(c, types, c.Blocks, x, false) + ColumnsQueued(c, types, c.Blocks, x, z, false)
      {
        ghost var blocks := c.Blocks;
        LightColumn(c, types, blockQueue, skyQueue, x, z, sky0);
        Append3(RowsQueued(c, types, blocks, x, true), ColumnsQueued(c, types, blocks, x, z, true), CellsQueued(c, types, blocks, x, z, -1, true));
        Append3(RowsQueued(c, types, blocks, x, false), ColumnsQueued(c, types, blocks, x, z, false), CellsQueued(c, types, blocks, x, z, -1, false));
        z := z + 1;
      }
      NextRow(c.skyLight, c.Blocks, types, sky0, x);
      x := x + 1;
    }
  }

  /** One column of `lightChunk`: 15 at the top, then the walk down. */
  method LightColumn(c: Chunk, types: uint16 -> BlockType, blockQueue: LightQueue, skyQueue: LightQueue, x: int, z: int, ghost sky0: LightBuffers)
    requires c.Valid() && blockQueue != skyQueue && blockQueue !in c.Repr && skyQueue !in c.Repr
    requires InColumn(x, z) && Seeded(c.skyLight, c.Blocks, types, sky0, x, z, 255)
    modifies c, blockQueue, skyQueue
    ensures c.Valid() && OnlyLight(c) && c.blockLight == old(c.blockLight)
    ensures Seeded(c.skyLight, c.Blocks, types, sky0, x, z + 1, 255)
    ensures blockQueue.items == old(blockQueue.items) + CellsQueued(c, types, c.Blocks, x, z, -1, true)
    ensures skyQueue.items == old(skyQueue.items) + CellsQueued(c, types, c.Blocks, x, z, -1, false)
  {
    SeedTop(c.skyLight, c.Blocks, types, sky0, x, z);
    c.SetSkyLight(x, 255, z, 15);
    WalkColumn(c, types, blockQueue, skyQueue, x, z, sky0);
    NextColumn(c.skyLight, c.Blocks, types, sky0, x, z);
  }

  /** The walk down column `(x, z)` from height 254 to 0. */
  method WalkColumn(c: Chunk, types: uint16 -> BlockType, blockQueue: LightQueue, skyQueue: LightQueue, x: int, z: int, ghost sky0: LightBuffers)
    requires c.Valid() && blockQueue != skyQueue && blockQueue !in c.Repr && skyQueue !in c.Repr
    requires InColumn(x, z) && Seeded(c.skyLight, c.Blocks, types, sky0, x, z, 254)
    modifies c, blockQueue, skyQueue
    ensures c.Valid() && OnlyLight(c) && c.blockLight == old(c.blockLight)
    ensures Seeded(c.skyLight, c.Blocks, types, sky0, x, z, -1)
    ensures blockQueue.items == old(blockQueue.items) + CellsQueued(c, types, c.Blocks, x, z, -1, true)
    ensures skyQueue.items == old(skyQueue.items) + CellsQueued(c, types, c.Blocks, x, z, -1, false)
  {
    ghost var b0, s0 := blockQueue.items, skyQueue.items;
    var currFilter := 15;
    var y := 254;
    while y >= 0
      invariant -1 <= y <= 254
      invariant c.Valid() && OnlyLight(c) && c.blockLight == old(c.blockLight)
      invariant Walked(c, types, sky0, x, z, y, currFilter, b0, s0, blockQueue.items, skyQueue.items)
    {
      currFilter := WalkCell(c, types, blockQueue, skyQueue, x, y, z, currFilter, sky0, b0, s0);
      y := y - 1;
    }
    WalkedToBottom(c, types, sky0, x, z, y, currFilter, b0, s0, blockQueue.items, skyQueue.items);
  }

  /** A walk that has passed height 0 has lit the whole column and queued
    * all of its cells. */
  lemma WalkedToBottom(c: Chunk, types: uint16 -> BlockType, sky0: LightBuffers, x: int, z: int, y: int, filter: int,
                       b0: seq<LightUpdate>, s0: seq<LightUpdate>, bq: seq<LightUpdate>, sq: seq<LightUpdate>)
    requires InColumn(x, z) && -1 <= y <= 254 && y < 0
    requires Walked(c, types, sky0, x, z, y, filter, b0, s0, bq, sq)
    ensures Seeded(c.skyLight, c.Blocks, types, sky0, x, z, -1)
    ensures bq == b0 + CellsQueued(c, types, c.Blocks, x, z, -1, true)
    ensures sq == s0 + CellsQueued(c, types, c.Blocks, x, z, -1, false)
  {
    assert y == -1;
  }

  /** The walk of column `(x, z)` has passed every cell above `y`: the
    * filter is the one reaching `y`, those cells hold their sky light and
    * the queues hold what they queued. */
  ghost predicate Walked(c: Chunk, types: uint16 -> BlockType, sky0: LightBuffers, x: int, z: int, y: int, filter: int,
                         b0: seq<LightUpdate>, s0: seq<LightUpdate>, bq: seq<LightUpdate>, sq: seq<LightUpdate>)
    requires InColumn(x, z) && -1 <= y <= 254
    reads c
  {
    Seeded(c.skyLight, c.Blocks, types, sky0, x, z, y)
    && filter == ColumnFilter(types, c.Blocks, x, z, y + 1)
    && bq == b0 + CellsQueued(c, types, c.Blocks, x, z, y, true)
    && sq == s0 + CellsQueued(c, types, c.Blocks, x, z, y, false)
  }

  /** One cell of the walk, with what it adds to the queues. */
  method WalkCell(c: Chunk, types: uint16 -> BlockType, blockQueue: LightQueue, skyQueue: LightQueue,
                  x: int, y: int, z: int, currFilter: int, ghost sky0: LightBuffers,
                  ghost b0: seq<LightUpdate>, ghost s0: seq<LightUpdate>) returns (filter: int)
    requires c.Valid() && blockQueue != skyQueue && blockQueue !in c.Repr && skyQueue !in c.Repr
    requires InColumn(x, z) && 0 <= y <= 254
    requires Walked(c, types, sky0, x, z, y, currFilter, b0, s0, blockQueue.items, skyQueue.items)
    modifies c, blockQueue, skyQueue
    ensures c.Valid() && OnlyLight(c) && c.blockLight == old(c.blockLight)
    ensures Walked(c, types, sky0, x, z, y - 1, filter, b0, s0, blockQueue.items, skyQueue.items)
  {
    ghost var blocks := c.Blocks;
    filter := WalkStep(c, types, blockQueue, skyQueue, x, y, z, currFilter, sky0);
    Append3(b0, CellsQueued(c, types, blocks, x, z, y, true), Queued(c, types, blocks, x, y, z, true));
    Append3(s0, CellsQueued(c, types, blocks, x, z, y, false), Queued(c, types, blocks, x, y, z, false));
  }

  /** One cell of the walk: the filter is taken off, the cell is queued as
    * its block says, and the filter is stored as its sky light. */
  method WalkStep(c: Chunk, types: uint16 -> BlockType, blockQueue: LightQueue, skyQueue: LightQueue,
                  x: int, y: int, z: int, currFilter: int, ghost sky0: LightBuffers) returns (filter: int)
    requires c.Valid() && blockQueue != skyQueue && blockQueue !in c.Repr && skyQueue !in c.Repr
    requires InChunk(x, y, z) && y < 255 && currFilter == ColumnFilter(types, c.Blocks, x, z, y + 1)
    requires Seeded(c.skyLight, c.Blocks, types, sky0, x, z, y)
    modifies c, blockQueue, skyQueue
    ensures c.Valid() && OnlyLight(c) && c.blockLight == old(c.blockLight)
    ensures filter == ColumnFilter(types, c.Blocks, x, z, y)
    ensures Seeded(c.skyLight, c.Blocks, types, sky0, x, z, y - 1)
    ensures blockQueue.items == old(blockQueue.items) + Queued(c, types, c.Blocks, x, y, z, true)
    ensures skyQueue.items == old(skyQueue.items) + Queued(c, types, c.Blocks, x, y, z, false)
  {
    var t := types(c.GetBlockState(x, y, z));
    filter := currFilter;
    if filter > 0 {
      filter := filter - t.filterLight;
      if filter < 0 {
        filter := 0;
      }
    }
    if !t.transparent {
      if t.emitLight > 0 {
        blockQueue.Add(LightUpdate(x, y, z, c));
      }
    } else {
      skyQueue.Add(LightUpdate(x, y, z, c));
    }
    ValidKept(c);
    SeedStep(c.skyLight, c.Blocks, types, sky0, x, y, z);
    c.SetSkyLight(x, y, z, filter);
  }

  /** `lightChunk`: the walk, then the block-light queue drained, then the
    * sky-light queue. With a budget of `fuel` updates per queue, the sky
    * light stays as the walk left it until the block drain has finished. */
  method LightChunk(w: World, c: Chunk, types: uint16 -> BlockType, fuel: nat) returns (blockDone: bool, skyDone: bool)
    requires c.Valid()
    modifies c
    ensures c.Valid() && OnlyLight(c)
    ensures skyDone ==> blockDone
    ensures !blockDone ==> SkyWalked(c.skyLight, c.Blocks, types, old(c.skyLight))
  {
    var blockQueue, skyQueue := SeedLight(c, types);
    ghost var walked := c.skyLight;
    WalkedPending(c, types, c.Blocks, true);
    WalkedPending(c, types, c.Blocks, false);
    OneChunkOk(c, {blockQueue, skyQueue});
    blockDone := DrainBlockLight(blockQueue, w, types, {c}, {blockQueue, skyQueue}, fuel);
    assert c in {c};
    assert c.skyLight == walked;
    skyDone := false;
    if blockDone {
      skyDone := DrainSkyLight(skyQueue, w, types, {c}, {blockQueue, skyQueue}, fuel);
    }
    assert c in {c};
  }

  /** A single valid chunk holding none of the queues is all a drain needs. */
  lemma OneChunkOk(c: Chunk, qs: set<LightQueue>)
    requires c.Valid() && forall q :: q in qs ==> q !in c.Repr
    ensures ChunksOk({c}, qs)
  {
  }
}
