/** The world packets of the play state (minecraft/proto/play/world.go).
  * Each packet is a value; its `Encode` appends the packet id as a varint,
  * then its fields. Each layout is paired with the client's reading of it,
  * built from the `Readers` functions, and proved to give back the fields. */
module PlayWorld {
  import opened Bytes
  import opened Wrappers
  import opened Positions
  import opened Writers
  import opened Readers

  datatype BlockBreakAnimation = BlockBreakAnimation(entityId: int32, location: Position, destroyStage: byte)

  function BlockBreakAnimationBytes(p: BlockBreakAnimation): seq<byte>
    requires p.entityId >= 0
  {
    VarintBytes(0x09) + VarintBytes(p.entityId) + PositionBytes(p.location) + [p.destroyStage]
  }

  /** The entity id is a varint, which the source only finishes writing for a non-negative id. */
  method EncodeBlockBreakAnimation(p: BlockBreakAnimation, w: Writer)
    requires p.entityId >= 0
    modifies w
    ensures w.data == old(w.data) + BlockBreakAnimationBytes(p)
  {
    ghost var d0 := w.data;
    w.WriteVarint(0x09);
    w.WriteVarint(p.entityId);
    Append3(d0, VarintBytes(0x09), VarintBytes(p.entityId));
    w.WritePosition(p.location);
    Append3(d0, VarintBytes(0x09) + VarintBytes(p.entityId), PositionBytes(p.location));
    w.WriteByte(p.destroyStage);
    Append3(d0, VarintBytes(0x09) + VarintBytes(p.entityId) + PositionBytes(p.location), [p.destroyStage]);
  }

  lemma BlockBreakAnimationLayoutPart1(data: seq<byte>, off: nat, p: BlockBreakAnimation, entityIdAt: nat, locationAt: nat, destroyStageAt: nat, end: nat)
    requires p.entityId >= 0
    requires At(data, off, VarintBytes(0x09) + VarintBytes(p.entityId) + PositionBytes(p.location))
    requires entityIdAt == off + 1 && locationAt == entityIdAt + |VarintBytes(p.entityId)| && destroyStageAt == locationAt + 8
    ensures At(data, off, VarintBytes(0x09))
    ensures At(data, entityIdAt, VarintBytes(p.entityId))
    ensures At(data, locationAt, PositionBytes(p.location))
  {
    AtSplitAt(data, off, VarintBytes(0x09) + VarintBytes(p.entityId), PositionBytes(p.location), locationAt);
    AtSplitAt(data, off, VarintBytes(0x09), VarintBytes(p.entityId), entityIdAt);
  }

  lemma BlockBreakAnimationLayoutPart2(data: seq<byte>, off: nat, p: BlockBreakAnimation, entityIdAt: nat, locationAt: nat, destroyStageAt: nat, end: nat)
    requires p.entityId >= 0
    requires At(data, off, VarintBytes(0x09) + VarintBytes(p.entityId) + PositionBytes(p.location) + [p.destroyStage])
    requires entityIdAt == off + 1 && locationAt == entityIdAt + |VarintBytes(p.entityId)| && destroyStageAt == locationAt + 8
    ensures At(data, off, VarintBytes(0x09) + VarintBytes(p.entityId) + PositionBytes(p.location))
    ensures At(data, destroyStageAt, [p.destroyStage])
  {
    AtSplitAt(data, off, VarintBytes(0x09) + VarintBytes(p.entityId) + PositionBytes(p.location), [p.destroyStage], destroyStageAt);
  }

  /** Where each field of BlockBreakAnimation sits when its bytes are at `off`. */
  lemma BlockBreakAnimationLayout(data: seq<byte>, off: nat, p: BlockBreakAnimation, entityIdAt: nat, locationAt: nat, destroyStageAt: nat, end: nat)
    requires p.entityId >= 0
    requires At(data, off, BlockBreakAnimationBytes(p))
    requires entityIdAt == off + 1 && locationAt == entityIdAt + |VarintBytes(p.entityId)| && destroyStageAt == locationAt + 8 && end == destroyStageAt + 1
    ensures end == off + |BlockBreakAnimationBytes(p)|
    ensures At(data, off, VarintBytes(0x09)) && At(data, entityIdAt, VarintBytes(p.entityId))
    ensures At(data, locationAt, PositionBytes(p.location)) && At(data, destroyStageAt, [p.destroyStage])
  {
    BlockBreakAnimationLayoutPart2(data, off, p, entityIdAt, locationAt, destroyStageAt, end);
    BlockBreakAnimationLayoutPart1(data, off, p, entityIdAt, locationAt, destroyStageAt, end);
  }

  lemma BlockBreakAnimationReadsBackPart1(data: seq<byte>, off: nat, p: BlockBreakAnimation, entityIdAt: nat, locationAt: nat, destroyStageAt: nat, end: nat)
    requires p.entityId >= 0 && InPackedRange(p.location)
    requires At(data, off, VarintBytes(0x09))
    requires At(data, entityIdAt, VarintBytes(p.entityId))
    requires At(data, locationAt, PositionBytes(p.location))
    requires entityIdAt == off + 1 && locationAt == entityIdAt + |VarintBytes(p.entityId)| && destroyStageAt == locationAt + 8
    ensures VarintAt(data, off) == Ok((0x09 as int, entityIdAt))
    ensures VarintAt(data, entityIdAt) == Ok((p.entityId as int, locationAt))
    ensures PositionAt(data, locationAt) == Ok((p.location, destroyStageAt))
  {
    VarintReadsBack(data, off, 0x09, entityIdAt);
    VarintReadsBack(data, entityIdAt, p.entityId, locationAt);
    PositionRoundTrip(data, locationAt, p.location);
  }

  lemma BlockBreakAnimationReadsBackPart2(data: seq<byte>, off: nat, p: BlockBreakAnimation, entityIdAt: nat, locationAt: nat, destroyStageAt: nat, end: nat)
    requires InPackedRange(p.location)
    requires At(data, destroyStageAt, [p.destroyStage])
    requires destroyStageAt == locationAt + 8 && end == destroyStageAt + 1
    ensures ByteAt(data, destroyStageAt) == Ok((p.destroyStage, end))
  {
    ByteRoundTrip(data, destroyStageAt, p.destroyStage);
  }

  /** Block Break Animation reads back field by field. */
  lemma BlockBreakAnimationReadsBack(data: seq<byte>, off: nat, p: BlockBreakAnimation, entityIdAt: nat, locationAt: nat, destroyStageAt: nat, end: nat)
    requires p.entityId >= 0 && InPackedRange(p.location)
    requires At(data, off, BlockBreakAnimationBytes(p))
    requires entityIdAt == off + 1 && locationAt == entityIdAt + |VarintBytes(p.entityId)| && destroyStageAt == locationAt + 8 && end == destroyStageAt + 1
    ensures VarintAt(data, off) == Ok((0x09 as int, entityIdAt))
    ensures VarintAt(data, entityIdAt) == Ok((p.entityId as int, locationAt))
    ensures PositionAt(data, locationAt) == Ok((p.location, destroyStageAt))
    ensures ByteAt(data, destroyStageAt) == Ok((p.destroyStage, end))
  {
    BlockBreakAnimationLayout(data, off, p, entityIdAt, locationAt, destroyStageAt, end);
    BlockBreakAnimationReadsBackPart1(data, off, p, entityIdAt, locationAt, destroyStageAt, end);
    BlockBreakAnimationReadsBackPart2(data, off, p, entityIdAt, locationAt, destroyStageAt, end);
  }

  datatype BlockChange = BlockChange(location: Position, blockId: uint16)

  function BlockChangeBytes(p: BlockChange): seq<byte>
  {
    VarintBytes(0x0C) + PositionBytes(p.location) + VarintBytes(p.blockId)
  }

  method EncodeBlockChange(p: BlockChange, w: Writer)
    modifies w
    ensures w.data == old(w.data) + BlockChangeBytes(p)
  {
    ghost var d0 := w.data;
    w.WriteVarint(0x0C);
    w.WritePosition(p.location);
    Append3(d0, VarintBytes(0x0C), PositionBytes(p.location));
    w.WriteVarint(p.blockId);
    Append3(d0, VarintBytes(0x0C) + PositionBytes(p.location), VarintBytes(p.blockId));
  }

  /** Where each field of BlockChange sits when its bytes are at `off`. */
  lemma BlockChangeLayout(data: seq<byte>, off: nat, p: BlockChange, locationAt: nat, blockIdAt: nat, end: nat)
    requires At(data, off, BlockChangeBytes(p))
    requires locationAt == off + 1 && blockIdAt == locationAt + 8 && end == blockIdAt + |VarintBytes(p.blockId)|
    ensures end == off + |BlockChangeBytes(p)|
    ensures At(data, off, VarintBytes(0x0C)) && At(data, locationAt, PositionBytes(p.location))
    ensures At(data, blockIdAt, VarintBytes(p.blockId))
  {
    AtSplitAt(data, off, VarintBytes(0x0C) + PositionBytes(p.location), VarintBytes(p.blockId), blockIdAt);
    AtSplitAt(data, off, VarintBytes(0x0C), PositionBytes(p.location), locationAt);
  }

  /** Block Change reads back as the position, then the state id. */
  lemma BlockChangeReadsBack(data: seq<byte>, off: nat, p: BlockChange, locationAt: nat, blockIdAt: nat, end: nat)
    requires InPackedRange(p.location)
    requires At(data, off, BlockChangeBytes(p))
    requires locationAt == off + 1 && blockIdAt == locationAt + 8 && end == blockIdAt + |VarintBytes(p.blockId)|
    ensures VarintAt(data, off) == Ok((0x0C as int, locationAt))
    ensures PositionAt(data, locationAt) == Ok((p.location, blockIdAt))
    ensures VarintAt(data, blockIdAt) == Ok((p.blockId as int, end))
  {
    BlockChangeLayout(data, off, p, locationAt, blockIdAt, end);
    VarintReadsBack(data, off, 0x0C, locationAt);
    PositionRoundTrip(data, locationAt, p.location);
    VarintReadsBack(data, blockIdAt, p.blockId, end);
  }

  datatype BlockRecord = BlockRecord(blockX: byte, blockZ: byte, blockY: byte, blockState: uint16)

  /** `BlockX<<4 | BlockZ` on Go bytes: the shift drops the high bits of
    * `BlockX`, and `BlockZ` is OR-ed in whole. */
  function PackedXZ(r: BlockRecord): byte
  {
    var high := (r.blockX * 16) % 256;
    BitOrBound(high, r.blockZ, 8);
    BitOr(high, r.blockZ)
  }

  /** Within 0..15 the shift and the OR are `X * 16 + Z`. */
  lemma PackedXZInSection(r: BlockRecord)
    requires r.blockX < 16 && r.blockZ < 16
    ensures PackedXZ(r) == r.blockX * 16 + r.blockZ
  {
    DivModUnique(r.blockX * 16, 256, 0, r.blockX * 16);
    DivModUnique(r.blockX * 16, 16, r.blockX, 0);
    BitOrDisjoint(r.blockX * 16, r.blockZ, 4);
  }

  function RecordBytes(r: BlockRecord): seq<byte>
  {
    [PackedXZ(r), r.blockY] + VarintBytes(r.blockState)
  }

  function RecordsBytes(rs: seq<BlockRecord>): seq<byte>
  {
    if rs == [] then [] else RecordsBytes(rs[..|rs| - 1]) + RecordBytes(rs[|rs| - 1])
  }

  datatype MultiBlockChange = MultiBlockChange(chunkX: int32, chunkZ: int32, records: seq<BlockRecord>)

  function MultiBlockChangeBytes(p: MultiBlockChange): seq<byte>
    requires |p.records| < 0x8000_0000
  {
    VarintBytes(0x10) + BigEndian(p.chunkX, 4) + BigEndian(p.chunkZ, 4) + VarintBytes(|p.records|) + RecordsBytes(p.records)
  }

  /** The record count is converted to `int32`; a list of 2^31 records or
    * more would be sent with a negative count, which the varint loop never
    * finishes writing. */
  method EncodeMultiBlockChange(p: MultiBlockChange, w: Writer)
    requires |p.records| < 0x8000_0000
    modifies w
    ensures w.data == old(w.data) + MultiBlockChangeBytes(p)
  {
    ghost var d0 := w.data;
    ghost var id, x, z, n := VarintBytes(0x10), BigEndian(p.chunkX, 4), BigEndian(p.chunkZ, 4), VarintBytes(|p.records|);
    w.WriteVarint(0x10);
    w.WriteInt(p.chunkX);
    Append3(d0, id, x);
    w.WriteInt(p.chunkZ);
    Append3(d0, id + x, z);
    w.WriteVarint(|p.records|);
    Append3(d0, id + x + z, n);
    ghost var start := w.data;
    var i := 0;
    while i < |p.records|
      invariant 0 <= i <= |p.records|
      invariant w.data == start + RecordsBytes(p.records[..i])
    {
      var rec := p.records[i];
      EncodeRecord(rec, w);
      assert p.records[..i + 1][..i] == p.records[..i];
      Append3(start, RecordsBytes(p.records[..i]), RecordBytes(rec));
      i := i + 1;
    }
    assert p.records[..i] == p.records;
    Append3(d0, id + x + z + n, RecordsBytes(p.records));
  }

  /** One iteration of the record loop of `Encode`. */
  method EncodeRecord(rec: BlockRecord, w: Writer)
    modifies w
    ensures w.data == old(w.data) + RecordBytes(rec)
  {
    ghost var before := w.data;
    w.WriteByte(PackedXZ(rec));
    w.WriteByte(rec.blockY);
    w.WriteVarint(rec.blockState);
    Append3(before, [PackedXZ(rec)], [rec.blockY]);
    Append3(before, [PackedXZ(rec), rec.blockY], VarintBytes(rec.blockState));
  }

  /** The client's reading of one record: X from the high half of the first
    * byte, Z from its low half. */
  function RecordAt(data: seq<byte>, off: nat): (r: Result<(BlockRecord, nat)>)
    requires off <= |data|
    ensures r.Ok? ==> off < r.value.1 <= |data|
  {
    if off + 2 > |data| then Err(EndOfPacket)
    else
      match VarintAt(data, off + 2)
      case Err(e) => Err(e)
      case Ok((s, next)) =>
        if 0 <= s < 0x1_0000 then Ok((BlockRecord(data[off] / 16, data[off] % 16, data[off + 1], s), next))
        else Err(VarintTooBig)
  }

  /** The client's reading of `n` records. */
  function RecordsAt(data: seq<byte>, off: nat, n: nat): (r: Result<(seq<BlockRecord>, nat)>)
    requires off <= |data|
    ensures r.Ok? ==> off <= r.value.1 <= |data| && |r.value.0| == n
    decreases n
  {
    if n == 0 then Ok(([], off))
    else
      match RecordsAt(data, off, n - 1)
      case Err(e) => Err(e)
      case Ok((rs, next)) =>
        match RecordAt(data, next)
        case Err(e) => Err(e)
        case Ok((rec, end)) => Ok((rs + [rec], end))
  }

  /** The block coordinates of a record fit its first byte exactly when
    * both are below 16. */
  predicate InSection(r: BlockRecord)
  {
    r.blockX < 16 && r.blockZ < 16
  }

  /** Every record of the list fits its first byte. */
  predicate AllInSection(rs: seq<BlockRecord>)
  {
    rs == [] || (AllInSection(rs[..|rs| - 1]) && InSection(rs[|rs| - 1]))
  }

  lemma RecordReadsBack(data: seq<byte>, off: nat, r: BlockRecord, end: nat)
    requires InSection(r) && At(data, off, RecordBytes(r)) && end == off + |RecordBytes(r)|
    ensures RecordAt(data, off) == Ok((r, end))
  {
    AtSplit(data, off, [PackedXZ(r), r.blockY], VarintBytes(r.blockState));
    assert data[off] == PackedXZ(r) && data[off + 1] == r.blockY;
    PackedXZInSection(r);
    DivModUnique(data[off], 16, r.blockX, r.blockZ);
    VarintRoundTrip(data, off + 2, r.blockState);
  }

  lemma {:induction false} RecordsReadBack(data: seq<byte>, off: nat, rs: seq<BlockRecord>, end: nat)
    requires AllInSection(rs) && At(data, off, RecordsBytes(rs)) && end == off + |RecordsBytes(rs)|
    ensures RecordsAt(data, off, |rs|) == Ok((rs, end))
  {
    if rs != [] {
      var init, last := rs[..|rs| - 1], rs[|rs| - 1];
      var mid := off + |RecordsBytes(init)|;
      AtSplit(data, off, RecordsBytes(init), RecordBytes(last));
      RecordsReadBack(data, off, init, mid);
      RecordReadsBack(data, mid, last, end);
      assert init + [last] == rs;
    }
  }

  /** Where each field of MultiBlockChange sits when its bytes are at `off`. */
  lemma MultiBlockChangeLayout(data: seq<byte>, off: nat, p: MultiBlockChange, chunkXAt: nat, chunkZAt: nat, countAt: nat, recordsAt: nat, end: nat)
    requires |p.records| < 0x8000_0000
    requires At(data, off, MultiBlockChangeBytes(p))
    requires chunkXAt == off + 1 && chunkZAt == chunkXAt + 4 && countAt == chunkZAt + 4
    requires recordsAt == countAt + |VarintBytes(|p.records|)| && end == recordsAt + |RecordsBytes(p.records)|
    ensures end == off + |MultiBlockChangeBytes(p)|
    ensures At(data, off, VarintBytes(0x10)) && At(data, chunkXAt, BigEndian(p.chunkX, 4))
    ensures At(data, chunkZAt, BigEndian(p.chunkZ, 4)) && At(data, countAt, VarintBytes(|p.records|)) && At(data, recordsAt, RecordsBytes(p.records))
  {
    var id, x, z, n := VarintBytes(0x10), BigEndian(p.chunkX, 4), BigEndian(p.chunkZ, 4), VarintBytes(|p.records|);
    AtSplit(data, off, id + x + z + n, RecordsBytes(p.records));
    AtSplit(data, off, id + x + z, n);
    AtSplit(data, off, id + x, z);
    AtSplit(data, off, id, x);
  }

  /** Multi Block Change reads back as the chunk coordinates, the count and
    * the records, when every record's X and Z are below 16. */
  lemma MultiBlockChangeReadsBack(data: seq<byte>, off: nat, p: MultiBlockChange, chunkXAt: nat, chunkZAt: nat, countAt: nat, recordsAt: nat, end: nat)
    requires |p.records| < 0x8000_0000 && AllInSection(p.records)
    requires At(data, off, MultiBlockChangeBytes(p))
    requires chunkXAt == off + 1 && chunkZAt == chunkXAt + 4 && countAt == chunkZAt + 4
    requires recordsAt == countAt + |VarintBytes(|p.records|)| && end == recordsAt + |RecordsBytes(p.records)|
    ensures VarintAt(data, off) == Ok((0x10 as int, chunkXAt))
    ensures SignedAt(data, chunkXAt, 4) == Ok((p.chunkX as int, chunkZAt))
    ensures SignedAt(data, chunkZAt, 4) == Ok((p.chunkZ as int, countAt))
    ensures VarintAt(data, countAt) == Ok((|p.records|, recordsAt))
    ensures RecordsAt(data, recordsAt, |p.records|) == Ok((p.records, end))
  {
    MultiBlockChangeLayout(data, off, p, chunkXAt, chunkZAt, countAt, recordsAt, end);
    HeaderReadsBack(data, off, p, chunkXAt, chunkZAt, countAt, recordsAt);
    RecordsReadBack(data, recordsAt, p.records, end);
  }

  /** The fixed part of Multi Block Change reads back from where the layout
    * puts it. */
  lemma HeaderReadsBack(data: seq<byte>, off: nat, p: MultiBlockChange, chunkXAt: nat, chunkZAt: nat, countAt: nat, recordsAt: nat)
    requires |p.records| < 0x8000_0000
    requires At(data, off, VarintBytes(0x10)) && At(data, chunkXAt, BigEndian(p.chunkX, 4))
    requires At(data, chunkZAt, BigEndian(p.chunkZ, 4)) && At(data, countAt, VarintBytes(|p.records|))
    requires chunkXAt == off + 1 && chunkZAt == chunkXAt + 4 && countAt == chunkZAt + 4
    requires recordsAt == countAt + |VarintBytes(|p.records|)|
    ensures VarintAt(data, off) == Ok((0x10 as int, chunkXAt))
    ensures SignedAt(data, chunkXAt, 4) == Ok((p.chunkX as int, chunkZAt))
    ensures SignedAt(data, chunkZAt, 4) == Ok((p.chunkZ as int, countAt))
    ensures VarintAt(data, countAt) == Ok((|p.records|, recordsAt))
  {
    VarintRoundTrip(data, off, 0x10);
    Readers.SignedRoundTrip(data, chunkXAt, p.chunkX, 4);
    Readers.SignedRoundTrip(data, chunkZAt, p.chunkZ, 4);
    VarintRoundTrip(data, countAt, |p.records|);
  }

  /** Outside 0..15 two records can share a first byte: X 1 with Z 0 and
    * X 0 with Z 16 both give 0x10. */
  lemma PackedXZCollides()
    ensures PackedXZ(BlockRecord(1, 0, 0, 0)) == PackedXZ(BlockRecord(0, 16, 0, 0)) == 0x10
  {
  }

  datatype UnloadChunk = UnloadChunk(chunkX: int32, chunkZ: int32)

  function UnloadChunkBytes(p: UnloadChunk): seq<byte>
  {
    VarintBytes(0x1E) + BigEndian(p.chunkX, 4) + BigEndian(p.chunkZ, 4)
  }

  method EncodeUnloadChunk(p: UnloadChunk, w: Writer)
    modifies w
    ensures w.data == old(w.data) + UnloadChunkBytes(p)
  {
    ghost var d0 := w.data;
    w.WriteVarint(0x1E);
    w.WriteInt(p.chunkX);
    Append3(d0, VarintBytes(0x1E), BigEndian(p.chunkX, 4));
    w.WriteInt(p.chunkZ);
    Append3(d0, VarintBytes(0x1E) + BigEndian(p.chunkX, 4), BigEndian(p.chunkZ, 4));
  }

  /** Where each field of UnloadChunk sits when its bytes are at `off`. */
  lemma UnloadChunkLayout(data: seq<byte>, off: nat, p: UnloadChunk, chunkXAt: nat, chunkZAt: nat, end: nat)
    requires At(data, off, UnloadChunkBytes(p))
    requires chunkXAt == off + 1 && chunkZAt == chunkXAt + 4 && end == chunkZAt + 4
    ensures end == off + |UnloadChunkBytes(p)|
    ensures At(data, off, VarintBytes(0x1E)) && At(data, chunkXAt, BigEndian(p.chunkX, 4))
    ensures At(data, chunkZAt, BigEndian(p.chunkZ, 4))
  {
    AtSplitAt(data, off, VarintBytes(0x1E) + BigEndian(p.chunkX, 4), BigEndian(p.chunkZ, 4), chunkZAt);
    AtSplitAt(data, off, VarintBytes(0x1E), BigEndian(p.chunkX, 4), chunkXAt);
  }

  /** Unload Chunk reads back for every pair of `int32` coordinates, negative ones included. */
  lemma UnloadChunkReadsBack(data: seq<byte>, off: nat, p: UnloadChunk, chunkXAt: nat, chunkZAt: nat, end: nat)
    requires At(data, off, UnloadChunkBytes(p))
    requires chunkXAt == off + 1 && chunkZAt == chunkXAt + 4 && end == chunkZAt + 4
    ensures VarintAt(data, off) == Ok((0x1E as int, chunkXAt))
    ensures SignedAt(data, chunkXAt, 4) == Ok((p.chunkX as int, chunkZAt))
    ensures SignedAt(data, chunkZAt, 4) == Ok((p.chunkZ as int, end))
  {
    UnloadChunkLayout(data, off, p, chunkXAt, chunkZAt, end);
    VarintReadsBack(data, off, 0x1E, chunkXAt);
    IntRoundTrip(data, chunkXAt, p.chunkX, chunkZAt);
    IntRoundTrip(data, chunkZAt, p.chunkZ, end);
  }

  datatype UpdateViewPosition = UpdateViewPosition(chunkX: int32, chunkZ: int32)

  function UpdateViewPositionBytes(p: UpdateViewPosition): seq<byte>
    requires p.chunkX >= 0 && p.chunkZ >= 0
  {
    VarintBytes(0x41) + VarintBytes(p.chunkX) + VarintBytes(p.chunkZ)
  }

  /** Unlike Unload Chunk, the coordinates are varints, so the source only finishes for non-negative chunk coordinates. */
  method EncodeUpdateViewPosition(p: UpdateViewPosition, w: Writer)
    requires p.chunkX >= 0 && p.chunkZ >= 0
    modifies w
    ensures w.data == old(w.data) + UpdateViewPositionBytes(p)
  {
    ghost var d0 := w.data;
    w.WriteVarint(0x41);
    w.WriteVarint(p.chunkX);
    Append3(d0, VarintBytes(0x41), VarintBytes(p.chunkX));
    w.WriteVarint(p.chunkZ);
    Append3(d0, VarintBytes(0x41) + VarintBytes(p.chunkX), VarintBytes(p.chunkZ));
  }

  /** Where each field of UpdateViewPosition sits when its bytes are at `off`. */
  lemma UpdateViewPositionLayout(data: seq<byte>, off: nat, p: UpdateViewPosition, chunkXAt: nat, chunkZAt: nat, end: nat)
    requires p.chunkX >= 0 && p.chunkZ >= 0
    requires At(data, off, UpdateViewPositionBytes(p))
    requires chunkXAt == off + 1 && chunkZAt == chunkXAt + |VarintBytes(p.chunkX)| && end == chunkZAt + |VarintBytes(p.chunkZ)|
    ensures end == off + |UpdateViewPositionBytes(p)|
    ensures At(data, off, VarintBytes(0x41)) && At(data, chunkXAt, VarintBytes(p.chunkX))
    ensures At(data, chunkZAt, VarintBytes(p.chunkZ))
  {
    AtSplitAt(data, off, VarintBytes(0x41) + VarintBytes(p.chunkX), VarintBytes(p.chunkZ), chunkZAt);
    AtSplitAt(data, off, VarintBytes(0x41), VarintBytes(p.chunkX), chunkXAt);
  }

  lemma UpdateViewPositionReadsBack(data: seq<byte>, off: nat, p: UpdateViewPosition, chunkXAt: nat, chunkZAt: nat, end: nat)
    requires p.chunkX >= 0 && p.chunkZ >= 0
    requires At(data, off, UpdateViewPositionBytes(p))
    requires chunkXAt == off + 1 && chunkZAt == chunkXAt + |VarintBytes(p.chunkX)| && end == chunkZAt + |VarintBytes(p.chunkZ)|
    ensures VarintAt(data, off) == Ok((0x41 as int, chunkXAt))
    ensures VarintAt(data, chunkXAt) == Ok((p.chunkX as int, chunkZAt))
    ensures VarintAt(data, chunkZAt) == Ok((p.chunkZ as int, end))
  {
    UpdateViewPositionLayout(data, off, p, chunkXAt, chunkZAt, end);
    VarintReadsBack(data, off, 0x41, chunkXAt);
    VarintReadsBack(data, chunkXAt, p.chunkX, chunkZAt);
    VarintReadsBack(data, chunkZAt, p.chunkZ, end);
  }

  datatype TimeUpdate = TimeUpdate(worldAge: int64, timeOfDay: int64)

  function TimeUpdateBytes(p: TimeUpdate): seq<byte>
  {
    VarintBytes(0x4F) + BigEndian(p.worldAge, 8) + BigEndian(p.timeOfDay, 8)
  }

  method EncodeTimeUpdate(p: TimeUpdate, w: Writer)
    modifies w
    ensures w.data == old(w.data) + TimeUpdateBytes(p)
  {
    ghost var d0 := w.data;
    w.WriteVarint(0x4F);
    w.WriteLong(p.worldAge);
    Append3(d0, VarintBytes(0x4F), BigEndian(p.worldAge, 8));
    w.WriteLong(p.timeOfDay);
    Append3(d0, VarintBytes(0x4F) + BigEndian(p.worldAge, 8), BigEndian(p.timeOfDay, 8));
  }

  /** Where each field of TimeUpdate sits when its bytes are at `off`. */
  lemma TimeUpdateLayout(data: seq<byte>, off: nat, p: TimeUpdate, worldAgeAt: nat, timeOfDayAt: nat, end: nat)
    requires At(data, off, TimeUpdateBytes(p))
    requires worldAgeAt == off + 1 && timeOfDayAt == worldAgeAt + 8 && end == timeOfDayAt + 8
    ensures end == off + |TimeUpdateBytes(p)|
    ensures At(data, off, VarintBytes(0x4F)) && At(data, worldAgeAt, BigEndian(p.worldAge, 8))
    ensures At(data, timeOfDayAt, BigEndian(p.timeOfDay, 8))
  {
    AtSplitAt(data, off, VarintBytes(0x4F) + BigEndian(p.worldAge, 8), BigEndian(p.timeOfDay, 8), timeOfDayAt);
    AtSplitAt(data, off, VarintBytes(0x4F), BigEndian(p.worldAge, 8), worldAgeAt);
  }

  /** Time Update reads back as the world age, then the time of day. */
  lemma TimeUpdateReadsBack(data: seq<byte>, off: nat, p: TimeUpdate, worldAgeAt: nat, timeOfDayAt: nat, end: nat)
    requires At(data, off, TimeUpdateBytes(p))
    requires worldAgeAt == off + 1 && timeOfDayAt == worldAgeAt + 8 && end == timeOfDayAt + 8
    ensures VarintAt(data, off) == Ok((0x4F as int, worldAgeAt))
    ensures SignedAt(data, worldAgeAt, 8) == Ok((p.worldAge as int, timeOfDayAt))
    ensures SignedAt(data, timeOfDayAt, 8) == Ok((p.timeOfDay as int, end))
  {
    TimeUpdateLayout(data, off, p, worldAgeAt, timeOfDayAt, end);
    VarintReadsBack(data, off, 0x4F, worldAgeAt);
    LongRoundTrip(data, worldAgeAt, p.worldAge, timeOfDayAt);
    LongRoundTrip(data, timeOfDayAt, p.timeOfDay, end);
  }
}
