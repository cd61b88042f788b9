/** The entity packets of the play state (minecraft/proto/play/entity.go):
  * spawning, moving, rotating, animating and removing entities, and their
  * metadata. Coordinates are IEEE 754 doubles the model carries as their
  * bit patterns; angles are one byte, a 256th of a turn. */
module PlayEntity {
  import opened Bytes
  import opened Wrappers
  import opened Writers
  import opened Readers
  import opened Metadata
  import opened Entities

  // The animation ids of Entity Animation.
  const AnimationSwingMainHand: byte := 0
  const AnimationTakeDamage: byte := 1
  const AnimationLeaveBed: byte := 2
  const AnimationSwingOffhand: byte := 3
  const AnimationCriticalEffect: byte := 4
  const AnimationMagicCriticalEffect: byte := 5

  datatype SpawnPlayer = SpawnPlayer(entityId: int32, uuid: seq<byte>, x: uint64, y: uint64, z: uint64, yaw: byte, pitch: byte)

  function SpawnPlayerBytes(p: SpawnPlayer): seq<byte>
    requires p.entityId >= 0 && |p.uuid| == 16
  {
    VarintBytes(0x05) + VarintBytes(p.entityId) + p.uuid + BigEndian(p.x, 8) + BigEndian(p.y, 8) + BigEndian(p.z, 8) + [p.yaw] + [p.pitch]
  }

  method EncodeSpawnPlayer(p: SpawnPlayer, w: Writer)
    requires p.entityId >= 0 && |p.uuid| == 16
    modifies w
    ensures w.data == old(w.data) + SpawnPlayerBytes(p)
  {
    ghost var d0 := w.data;
    w.WriteVarint(0x05);
    w.WriteVarint(p.entityId);
    Append3(d0, VarintBytes(0x05), VarintBytes(p.entityId));
    w.WriteUUID(p.uuid);
    Append3(d0, VarintBytes(0x05) + VarintBytes(p.entityId), p.uuid);
    w.WriteDouble(p.x);
    Append3(d0, VarintBytes(0x05) + VarintBytes(p.entityId) + p.uuid, BigEndian(p.x, 8));
    w.WriteDouble(p.y);
    Append3(d0, VarintBytes(0x05) + VarintBytes(p.entityId) + p.uuid + BigEndian(p.x, 8), BigEndian(p.y, 8));
    w.WriteDouble(p.z);
    Append3(d0, VarintBytes(0x05) + VarintBytes(p.entityId) + p.uuid + BigEndian(p.x, 8) + BigEndian(p.y, 8), BigEndian(p.z, 8));
    w.WriteAngle(p.yaw);
    Append3(d0, VarintBytes(0x05) + VarintBytes(p.entityId) + p.uuid + BigEndian(p.x, 8) + BigEndian(p.y, 8) + BigEndian(p.z, 8), [p.yaw]);
    w.WriteAngle(p.pitch);
    Append3(d0, VarintBytes(0x05) + VarintBytes(p.entityId) + p.uuid + BigEndian(p.x, 8) + BigEndian(p.y, 8) + BigEndian(p.z, 8) + [p.yaw], [p.pitch]);
  }

  lemma SpawnPlayerLayoutPart1(data: seq<byte>, off: nat, p: SpawnPlayer, entityIdAt: nat, uuidAt: nat, xAt: nat, yAt: nat, zAt: nat, yawAt: nat, pitchAt: nat, end: nat)
    requires p.entityId >= 0 && |p.uuid| == 16
    requires At(data, off, VarintBytes(0x05) + VarintBytes(p.entityId) + p.uuid)
    requires entityIdAt == off + 1 && uuidAt == entityIdAt + |VarintBytes(p.entityId)| && xAt == uuidAt + 16 && yAt == xAt + 8 && zAt == yAt + 8 && yawAt == zAt + 8 && pitchAt == yawAt + 1
    ensures At(data, off, VarintBytes(0x05))
    ensures At(data, entityIdAt, VarintBytes(p.entityId))
    ensures At(data, uuidAt, p.uuid)
  {
    AtSplitAt(data, off, VarintBytes(0x05) + VarintBytes(p.entityId), p.uuid, uuidAt);
    AtSplitAt(data, off, VarintBytes(0x05), VarintBytes(p.entityId), entityIdAt);
  }

  lemma SpawnPlayerLayoutPart2(data: seq<byte>, off: nat, p: SpawnPlayer, entityIdAt: nat, uuidAt: nat, xAt: nat, yAt: nat, zAt: nat, yawAt: nat, pitchAt: nat, end: nat)
    requires p.entityId >= 0 && |p.uuid| == 16
    requires At(data, off, VarintBytes(0x05) + VarintBytes(p.entityId) + p.uuid + BigEndian(p.x, 8) + BigEndian(p.y, 8) + BigEndian(p.z, 8))
    requires entityIdAt == off + 1 && uuidAt == entityIdAt + |VarintBytes(p.entityId)| && xAt == uuidAt + 16 && yAt == xAt + 8 && zAt == yAt + 8 && yawAt == zAt + 8 && pitchAt == yawAt + 1
    ensures At(data, off, VarintBytes(0x05) + VarintBytes(p.entityId) + p.uuid)
    ensures At(data, xAt, BigEndian(p.x, 8))
    ensures At(data, yAt, BigEndian(p.y, 8))
    ensures At(data, zAt, BigEndian(p.z, 8))
  {
    AtSplitAt(data, off, VarintBytes(0x05) + VarintBytes(p.entityId) + p.uuid + BigEndian(p.x, 8) + BigEndian(p.y, 8), BigEndian(p.z, 8), zAt);
    AtSplitAt(data, off, VarintBytes(0x05) + VarintBytes(p.entityId) + p.uuid + BigEndian(p.x, 8), BigEndian(p.y, 8), yAt);
    AtSplitAt(data, off, VarintBytes(0x05) + VarintBytes(p.entityId) + p.uuid, BigEndian(p.x, 8), xAt);
  }

  lemma SpawnPlayerLayoutPart3(data: seq<byte>, off: nat, p: SpawnPlayer, entityIdAt: nat, uuidAt: nat, xAt: nat, yAt: nat, zAt: nat, yawAt: nat, pitchAt: nat, end: nat)
    requires p.entityId >= 0 && |p.uuid| == 16
    requires At(data, off, VarintBytes(0x05) + VarintBytes(p.entityId) + p.uuid + BigEndian(p.x, 8) + BigEndian(p.y, 8) + BigEndian(p.z, 8) + [p.yaw] + [p.pitch])
    requires entityIdAt == off + 1 && uuidAt == entityIdAt + |VarintBytes(p.entityId)| && xAt == uuidAt + 16 && yAt == xAt + 8 && zAt == yAt + 8 && yawAt == zAt + 8 && pitchAt == yawAt + 1
    ensures At(data, off, VarintBytes(0x05) + VarintBytes(p.entityId) + p.uuid + BigEndian(p.x, 8) + BigEndian(p.y, 8) + BigEndian(p.z, 8))
    ensures At(data, yawAt, [p.yaw])
    ensures At(data, pitchAt, [p.pitch])
  {
    AtSplitAt(data, off, VarintBytes(0x05) + VarintBytes(p.entityId) + p.uuid + BigEndian(p.x, 8) + BigEndian(p.y, 8) + BigEndian(p.z, 8) + [p.yaw], [p.pitch], pitchAt);
    AtSplitAt(data, off, VarintBytes(0x05) + VarintBytes(p.entityId) + p.uuid + BigEndian(p.x, 8) + BigEndian(p.y, 8) + BigEndian(p.z, 8), [p.yaw], yawAt);
  }

  /** Where each field of SpawnPlayer sits when its bytes are at `off`. */
  lemma SpawnPlayerLayout(data: seq<byte>, off: nat, p: SpawnPlayer, entityIdAt: nat, uuidAt: nat, xAt: nat, yAt: nat, zAt: nat, yawAt: nat, pitchAt: nat, end: nat)
    requires p.entityId >= 0 && |p.uuid| == 16
    requires At(data, off, SpawnPlayerBytes(p))
    requires entityIdAt == off + 1 && uuidAt == entityIdAt + |VarintBytes(p.entityId)| && xAt == uuidAt + 16 && yAt == xAt + 8 && zAt == yAt + 8 && yawAt == zAt + 8 && pitchAt == yawAt + 1 && end == pitchAt + 1
    ensures end == off + |SpawnPlayerBytes(p)|
    ensures At(data, off, VarintBytes(0x05)) && At(data, entityIdAt, VarintBytes(p.entityId))
    ensures At(data, uuidAt, p.uuid) && At(data, xAt, BigEndian(p.x, 8))
    ensures At(data, yAt, BigEndian(p.y, 8)) && At(data, zAt, BigEndian(p.z, 8))
    ensures At(data, yawAt, [p.yaw]) && At(data, pitchAt, [p.pitch])
  {
    SpawnPlayerLayoutPart3(data, off, p, entityIdAt, uuidAt, xAt, yAt, zAt, yawAt, pitchAt, end);
    SpawnPlayerLayoutPart2(data, off, p, entityIdAt, uuidAt, xAt, yAt, zAt, yawAt, pitchAt, end);
    SpawnPlayerLayoutPart1(data, off, p, entityIdAt, uuidAt, xAt, yAt, zAt, yawAt, pitchAt, end);
  }

  lemma SpawnPlayerReadsBackPart1(data: seq<byte>, off: nat, p: SpawnPlayer, entityIdAt: nat, uuidAt: nat, xAt: nat, yAt: nat, zAt: nat, yawAt: nat, pitchAt: nat, end: nat)
    requires p.entityId >= 0 && |p.uuid| == 16
    requires At(data, off, VarintBytes(0x05))
    requires At(data, entityIdAt, VarintBytes(p.entityId))
    requires At(data, uuidAt, p.uuid)
    requires entityIdAt == off + 1 && uuidAt == entityIdAt + |VarintBytes(p.entityId)| && xAt == uuidAt + 16
    ensures VarintAt(data, off) == Ok((0x05 as int, entityIdAt))
    ensures VarintAt(data, entityIdAt) == Ok((p.entityId as int, uuidAt))
    ensures BytesAt(data, uuidAt, 16) == Ok((p.uuid, xAt))
  {
    VarintReadsBack(data, off, 0x05, entityIdAt);
    VarintReadsBack(data, entityIdAt, p.entityId, uuidAt);
    BytesRoundTrip(data, uuidAt, p.uuid);
  }

  lemma SpawnPlayerReadsBackPart2(data: seq<byte>, off: nat, p: SpawnPlayer, entityIdAt: nat, uuidAt: nat, xAt: nat, yAt: nat, zAt: nat, yawAt: nat, pitchAt: nat, end: nat)
    requires |p.uuid| == 16
    requires At(data, xAt, BigEndian(p.x, 8))
    requires At(data, yAt, BigEndian(p.y, 8))
    requires At(data, zAt, BigEndian(p.z, 8))
    requires xAt == uuidAt + 16 && yAt == xAt + 8 && zAt == yAt + 8 && yawAt == zAt + 8
    ensures UnsignedAt(data, xAt, 8) == Ok((p.x as nat, yAt))
    ensures UnsignedAt(data, yAt, 8) == Ok((p.y as nat, zAt))
    ensures UnsignedAt(data, zAt, 8) == Ok((p.z as nat, yawAt))
  {
    DoubleRoundTrip(data, xAt, p.x, yAt);
    DoubleRoundTrip(data, yAt, p.y, zAt);
    DoubleRoundTrip(data, zAt, p.z, yawAt);
  }

  lemma SpawnPlayerReadsBackPart3(data: seq<byte>, off: nat, p: SpawnPlayer, entityIdAt: nat, uuidAt: nat, xAt: nat, yAt: nat, zAt: nat, yawAt: nat, pitchAt: nat, end: nat)
    requires At(data, yawAt, [p.yaw])
    requires At(data, pitchAt, [p.pitch])
    requires yawAt == zAt + 8 && pitchAt == yawAt + 1 && end == pitchAt + 1
    ensures ByteAt(data, yawAt) == Ok((p.yaw, pitchAt))
    ensures ByteAt(data, pitchAt) == Ok((p.pitch, end))
  {
    ByteRoundTrip(data, yawAt, p.yaw);
    ByteRoundTrip(data, pitchAt, p.pitch);
  }

  /** Spawn Player reads back as the id, the UUID, the coordinates and the angles. */
  lemma SpawnPlayerReadsBack(data: seq<byte>, off: nat, p: SpawnPlayer, entityIdAt: nat, uuidAt: nat, xAt: nat, yAt: nat, zAt: nat, yawAt: nat, pitchAt: nat, end: nat)
    requires p.entityId >= 0 && |p.uuid| == 16
    requires At(data, off, SpawnPlayerBytes(p))
    requires entityIdAt == off + 1 && uuidAt == entityIdAt + |VarintBytes(p.entityId)| && xAt == uuidAt + 16 && yAt == xAt + 8 && zAt == yAt + 8 && yawAt == zAt + 8 && pitchAt == yawAt + 1 && end == pitchAt + 1
    ensures VarintAt(data, off) == Ok((0x05 as int, entityIdAt))
    ensures VarintAt(data, entityIdAt) == Ok((p.entityId as int, uuidAt))
    ensures BytesAt(data, uuidAt, 16) == Ok((p.uuid, xAt))
    ensures UnsignedAt(data, xAt, 8) == Ok((p.x as nat, yAt))
    ensures UnsignedAt(data, yAt, 8) == Ok((p.y as nat, zAt))
    ensures UnsignedAt(data, zAt, 8) == Ok((p.z as nat, yawAt))
    ensures ByteAt(data, yawAt) == Ok((p.yaw, pitchAt))
    ensures ByteAt(data, pitchAt) == Ok((p.pitch, end))
  {
    SpawnPlayerLayout(data, off, p, entityIdAt, uuidAt, xAt, yAt, zAt, yawAt, pitchAt, end);
    SpawnPlayerReadsBackPart1(data, off, p, entityIdAt, uuidAt, xAt, yAt, zAt, yawAt, pitchAt, end);
    SpawnPlayerReadsBackPart2(data, off, p, entityIdAt, uuidAt, xAt, yAt, zAt, yawAt, pitchAt, end);
    SpawnPlayerReadsBackPart3(data, off, p, entityIdAt, uuidAt, xAt, yAt, zAt, yawAt, pitchAt, end);
  }

  datatype EntityAnimation = EntityAnimation(entityId: int32, animation: byte)

  function EntityAnimationBytes(p: EntityAnimation): seq<byte>
    requires p.entityId >= 0
  {
    VarintBytes(0x06) + VarintBytes(p.entityId) + [p.animation]
  }

  method EncodeEntityAnimation(p: EntityAnimation, w: Writer)
    requires p.entityId >= 0
    modifies w
    ensures w.data == old(w.data) + EntityAnimationBytes(p)
  {
    ghost var d0 := w.data;
    w.WriteVarint(0x06);
    w.WriteVarint(p.entityId);
    Append3(d0, VarintBytes(0x06), VarintBytes(p.entityId));
    w.WriteByte(p.animation);
    Append3(d0, VarintBytes(0x06) + VarintBytes(p.entityId), [p.animation]);
  }

  /** Where each field of EntityAnimation sits when its bytes are at `off`. */
  lemma EntityAnimationLayout(data: seq<byte>, off: nat, p: EntityAnimation, entityIdAt: nat, animationAt: nat, end: nat)
    requires p.entityId >= 0
    requires At(data, off, EntityAnimationBytes(p))
    requires entityIdAt == off + 1 && animationAt == entityIdAt + |VarintBytes(p.entityId)| && end == animationAt + 1
    ensures end == off + |EntityAnimationBytes(p)|
    ensures At(data, off, VarintBytes(0x06)) && At(data, entityIdAt, VarintBytes(p.entityId))
    ensures At(data, animationAt, [p.animation])
  {
    AtSplitAt(data, off, VarintBytes(0x06) + VarintBytes(p.entityId), [p.animation], animationAt);
    AtSplitAt(data, off, VarintBytes(0x06), VarintBytes(p.entityId), entityIdAt);
  }

  /** Entity Animation reads back as the id, then the animation. */
  lemma EntityAnimationReadsBack(data: seq<byte>, off: nat, p: EntityAnimation, entityIdAt: nat, animationAt: nat, end: nat)
    requires p.entityId >= 0
    requires At(data, off, EntityAnimationBytes(p))
    requires entityIdAt == off + 1 && animationAt == entityIdAt + |VarintBytes(p.entityId)| && end == animationAt + 1
    ensures VarintAt(data, off) == Ok((0x06 as int, entityIdAt))
    ensures VarintAt(data, entityIdAt) == Ok((p.entityId as int, animationAt))
    ensures ByteAt(data, animationAt) == Ok((p.animation, end))
  {
    EntityAnimationLayout(data, off, p, entityIdAt, animationAt, end);
    VarintReadsBack(data, off, 0x06, entityIdAt);
    VarintReadsBack(data, entityIdAt, p.entityId, animationAt);
    ByteRoundTrip(data, animationAt, p.animation);
  }

  datatype EntityPosition = EntityPosition(entityId: int32, deltaX: int16, deltaY: int16, deltaZ: int16, onGround: bool)

  /** The deltas are signed 16-bit fixed-point offsets. */
  function EntityPositionBytes(p: EntityPosition): seq<byte>
    requires p.entityId >= 0
  {
    VarintBytes(0x29) + VarintBytes(p.entityId) + BigEndian(p.deltaX, 2) + BigEndian(p.deltaY, 2) + BigEndian(p.deltaZ, 2) + BooleanBytes(p.onGround)
  }

  method EncodeEntityPosition(p: EntityPosition, w: Writer)
    requires p.entityId >= 0
    modifies w
    ensures w.data == old(w.data) + EntityPositionBytes(p)
  {
    ghost var d0 := w.data;
    w.WriteVarint(0x29);
    w.WriteVarint(p.entityId);
    Append3(d0, VarintBytes(0x29), VarintBytes(p.entityId));
    w.WriteShort(p.deltaX);
    Append3(d0, VarintBytes(0x29) + VarintBytes(p.entityId), BigEndian(p.deltaX, 2));
    w.WriteShort(p.deltaY);
    Append3(d0, VarintBytes(0x29) + VarintBytes(p.entityId) + BigEndian(p.deltaX, 2), BigEndian(p.deltaY, 2));
    w.WriteShort(p.deltaZ);
    Append3(d0, VarintBytes(0x29) + VarintBytes(p.entityId) + BigEndian(p.deltaX, 2) + BigEndian(p.deltaY, 2), BigEndian(p.deltaZ, 2));
    w.WriteBoolean(p.onGround);
    Append3(d0, VarintBytes(0x29) + VarintBytes(p.entityId) + BigEndian(p.deltaX, 2) + BigEndian(p.deltaY, 2) + BigEndian(p.deltaZ, 2), BooleanBytes(p.onGround));
  }

  lemma EntityPositionLayoutPart1(data: seq<byte>, off: nat, p: EntityPosition, entityIdAt: nat, deltaXAt: nat, deltaYAt: nat, deltaZAt: nat, onGroundAt: nat, end: nat)
    requires p.entityId >= 0
    requires At(data, off, VarintBytes(0x29) + VarintBytes(p.entityId) + BigEndian(p.deltaX, 2))
    requires entityIdAt == off + 1 && deltaXAt == entityIdAt + |VarintBytes(p.entityId)| && deltaYAt == deltaXAt + 2 && deltaZAt == deltaYAt + 2 && onGroundAt == deltaZAt + 2
    ensures At(data, off, VarintBytes(0x29))
    ensures At(data, entityIdAt, VarintBytes(p.entityId))
    ensures At(data, deltaXAt, BigEndian(p.deltaX, 2))
  {
    AtSplitAt(data, off, VarintBytes(0x29) + VarintBytes(p.entityId), BigEndian(p.deltaX, 2), deltaXAt);
    AtSplitAt(data, off, VarintBytes(0x29), VarintBytes(p.entityId), entityIdAt);
  }

  lemma EntityPositionLayoutPart2(data: seq<byte>, off: nat, p: EntityPosition, entityIdAt: nat, deltaXAt: nat, deltaYAt: nat, deltaZAt: nat, onGroundAt: nat, end: nat)
    requires p.entityId >= 0
    requires At(data, off, VarintBytes(0x29) + VarintBytes(p.entityId) + BigEndian(p.deltaX, 2) + BigEndian(p.deltaY, 2) + BigEndian(p.deltaZ, 2) + BooleanBytes(p.onGround))
    requires entityIdAt == off + 1 && deltaXAt == entityIdAt + |VarintBytes(p.entityId)| && deltaYAt == deltaXAt + 2 && deltaZAt == deltaYAt + 2 && onGroundAt == deltaZAt + 2
    ensures At(data, off, VarintBytes(0x29) + VarintBytes(p.entityId) + BigEndian(p.deltaX, 2))
    ensures At(data, deltaYAt, BigEndian(p.deltaY, 2))
    ensures At(data, deltaZAt, BigEndian(p.deltaZ, 2))
    ensures At(data, onGroundAt, BooleanBytes(p.onGround))
  {
    AtSplitAt(data, off, VarintBytes(0x29) + VarintBytes(p.entityId) + BigEndian(p.deltaX, 2) + BigEndian(p.deltaY, 2) + BigEndian(p.deltaZ, 2), BooleanBytes(p.onGround), onGroundAt);
    AtSplitAt(data, off, VarintBytes(0x29) + VarintBytes(p.entityId) + BigEndian(p.deltaX, 2) + BigEndian(p.deltaY, 2), BigEndian(p.deltaZ, 2), deltaZAt);
    AtSplitAt(data, off, VarintBytes(0x29) + VarintBytes(p.entityId) + BigEndian(p.deltaX, 2), BigEndian(p.deltaY, 2), deltaYAt);
  }

  /** Where each field of EntityPosition sits when its bytes are at `off`. */
  lemma EntityPositionLayout(data: seq<byte>, off: nat, p: EntityPosition, entityIdAt: nat, deltaXAt: nat, deltaYAt: nat, deltaZAt: nat, onGroundAt: nat, end: nat)
    requires p.entityId >= 0
    requires At(data, off, EntityPositionBytes(p))
    requires entityIdAt == off + 1 && deltaXAt == entityIdAt + |VarintBytes(p.entityId)| && deltaYAt == deltaXAt + 2 && deltaZAt == deltaYAt + 2 && onGroundAt == deltaZAt + 2 && end == onGroundAt + 1
    ensures end == off + |EntityPositionBytes(p)|
    ensures At(data, off, VarintBytes(0x29)) && At(data, entityIdAt, VarintBytes(p.entityId))
    ensures At(data, deltaXAt, BigEndian(p.deltaX, 2)) && At(data, deltaYAt, BigEndian(p.deltaY, 2))
    ensures At(data, deltaZAt, BigEndian(p.deltaZ, 2)) && At(data, onGroundAt, BooleanBytes(p.onGround))
  {
    EntityPositionLayoutPart2(data, off, p, entityIdAt, deltaXAt, deltaYAt, deltaZAt, onGroundAt, end);
    EntityPositionLayoutPart1(data, off, p, entityIdAt, deltaXAt, deltaYAt, deltaZAt, onGroundAt, end);
  }

  lemma EntityPositionReadsBackPart1(data: seq<byte>, off: nat, p: EntityPosition, entityIdAt: nat, deltaXAt: nat, deltaYAt: nat, deltaZAt: nat, onGroundAt: nat, end: nat)
    requires p.entityId >= 0
    requires At(data, off, VarintBytes(0x29))
    requires At(data, entityIdAt, VarintBytes(p.entityId))
    requires At(data, deltaXAt, BigEndian(p.deltaX, 2))
    requires entityIdAt == off + 1 && deltaXAt == entityIdAt + |VarintBytes(p.entityId)| && deltaYAt == deltaXAt + 2
    ensures VarintAt(data, off) == Ok((0x29 as int, entityIdAt))
    ensures VarintAt(data, entityIdAt) == Ok((p.entityId as int, deltaXAt))
    ensures SignedAt(data, deltaXAt, 2) == Ok((p.deltaX as int, deltaYAt))
  {
    VarintReadsBack(data, off, 0x29, entityIdAt);
    VarintReadsBack(data, entityIdAt, p.entityId, deltaXAt);
    ShortRoundTrip(data, deltaXAt, p.deltaX, deltaYAt);
  }

  lemma EntityPositionReadsBackPart2(data: seq<byte>, off: nat, p: EntityPosition, entityIdAt: nat, deltaXAt: nat, deltaYAt: nat, deltaZAt: nat, onGroundAt: nat, end: nat)
    requires At(data, deltaYAt, BigEndian(p.deltaY, 2))
    requires At(data, deltaZAt, BigEndian(p.deltaZ, 2))
    requires At(data, onGroundAt, BooleanBytes(p.onGround))
    requires deltaYAt == deltaXAt + 2 && deltaZAt == deltaYAt + 2 && onGroundAt == deltaZAt + 2 && end == onGroundAt + 1
    ensures SignedAt(data, deltaYAt, 2) == Ok((p.deltaY as int, deltaZAt))
    ensures SignedAt(data, deltaZAt, 2) == Ok((p.deltaZ as int, onGroundAt))
    ensures BooleanAt(data, onGroundAt) == Ok((p.onGround, end))
  {
    ShortRoundTrip(data, deltaYAt, p.deltaY, deltaZAt);
    ShortRoundTrip(data, deltaZAt, p.deltaZ, onGroundAt);
    BooleanRoundTrip(data, onGroundAt, p.onGround);
  }

  /** Entity Position reads back with negative deltas intact. */
  lemma EntityPositionReadsBack(data: seq<byte>, off: nat, p: EntityPosition, entityIdAt: nat, deltaXAt: nat, deltaYAt: nat, deltaZAt: nat, onGroundAt: nat, end: nat)
    requires p.entityId >= 0
    requires At(data, off, EntityPositionBytes(p))
    requires entityIdAt == off + 1 && deltaXAt == entityIdAt + |VarintBytes(p.entityId)| && deltaYAt == deltaXAt + 2 && deltaZAt == deltaYAt + 2 && onGroundAt == deltaZAt + 2 && end == onGroundAt + 1
    ensures VarintAt(data, off) == Ok((0x29 as int, entityIdAt))
    ensures VarintAt(data, entityIdAt) == Ok((p.entityId as int, deltaXAt))
    ensures SignedAt(data, deltaXAt, 2) == Ok((p.deltaX as int, deltaYAt))
    ensures SignedAt(data, deltaYAt, 2) == Ok((p.deltaY as int, deltaZAt))
    ensures SignedAt(data, deltaZAt, 2) == Ok((p.deltaZ as int, onGroundAt))
    ensures BooleanAt(data, onGroundAt) == Ok((p.onGround, end))
  {
    EntityPositionLayout(data, off, p, entityIdAt, deltaXAt, deltaYAt, deltaZAt, onGroundAt, end);
    EntityPositionReadsBackPart1(data, off, p, entityIdAt, deltaXAt, deltaYAt, deltaZAt, onGroundAt, end);
    EntityPositionReadsBackPart2(data, off, p, entityIdAt, deltaXAt, deltaYAt, deltaZAt, onGroundAt, end);
  }

  datatype EntityPositionAndRotation = EntityPositionAndRotation(entityId: int32, deltaX: int16, deltaY: int16, deltaZ: int16, yaw: byte, pitch: byte, onGround: bool)

  function EntityPositionAndRotationBytes(p: EntityPositionAndRotation): seq<byte>
    requires p.entityId >= 0
  {
    VarintBytes(0x2A) + VarintBytes(p.entityId) + BigEndian(p.deltaX, 2) + BigEndian(p.deltaY, 2) + BigEndian(p.deltaZ, 2) + [p.yaw] + [p.pitch] + BooleanBytes(p.onGround)
  }

  method EncodeEntityPositionAndRotation(p: EntityPositionAndRotation, w: Writer)
    requires p.entityId >= 0
    modifies w
    ensures w.data == old(w.data) + EntityPositionAndRotationBytes(p)
  {
    ghost var d0 := w.data;
    w.WriteVarint(0x2A);
    w.WriteVarint(p.entityId);
    Append3(d0, VarintBytes(0x2A), VarintBytes(p.entityId));
    w.WriteShort(p.deltaX);
    Append3(d0, VarintBytes(0x2A) + VarintBytes(p.entityId), BigEndian(p.deltaX, 2));
    w.WriteShort(p.deltaY);
    Append3(d0, VarintBytes(0x2A) + VarintBytes(p.entityId) + BigEndian(p.deltaX, 2), BigEndian(p.deltaY, 2));
    w.WriteShort(p.deltaZ);
    Append3(d0, VarintBytes(0x2A) + VarintBytes(p.entityId) + BigEndian(p.deltaX, 2) + BigEndian(p.deltaY, 2), BigEndian(p.deltaZ, 2));
    w.WriteAngle(p.yaw);
    Append3(d0, VarintBytes(0x2A) + VarintBytes(p.entityId) + BigEndian(p.deltaX, 2) + BigEndian(p.deltaY, 2) + BigEndian(p.deltaZ, 2), [p.yaw]);
    w.WriteAngle(p.pitch);
    Append3(d0, VarintBytes(0x2A) + VarintBytes(p.entityId) + BigEndian(p.deltaX, 2) + BigEndian(p.deltaY, 2) + BigEndian(p.deltaZ, 2) + [p.yaw], [p.pitch]);
    w.WriteBoolean(p.onGround);
    Append3(d0, VarintBytes(0x2A) + VarintBytes(p.entityId) + BigEndian(p.deltaX, 2) + BigEndian(p.deltaY, 2) + BigEndian(p.deltaZ, 2) + [p.yaw] + [p.pitch], BooleanBytes(p.onGround));
  }

  lemma EntityPositionAndRotationLayoutPart1(data: seq<byte>, off: nat, p: EntityPositionAndRotation, entityIdAt: nat, deltaXAt: nat, deltaYAt: nat, deltaZAt: nat, yawAt: nat, pitchAt: nat, onGroundAt: nat, end: nat)
    requires p.entityId >= 0
    requires At(data, off, VarintBytes(0x2A) + VarintBytes(p.entityId) + BigEndian(p.deltaX, 2))
    requires entityIdAt == off + 1 && deltaXAt == entityIdAt + |VarintBytes(p.entityId)| && deltaYAt == deltaXAt + 2 && deltaZAt == deltaYAt + 2 && yawAt == deltaZAt + 2 && pitchAt == yawAt + 1 && onGroundAt == pitchAt + 1
    ensures At(data, off, VarintBytes(0x2A))
    ensures At(data, entityIdAt, VarintBytes(p.entityId))
    ensures At(data, deltaXAt, BigEndian(p.deltaX, 2))
  {
    AtSplitAt(data, off, VarintBytes(0x2A) + VarintBytes(p.entityId), BigEndian(p.deltaX, 2), deltaXAt);
    AtSplitAt(data, off, VarintBytes(0x2A), VarintBytes(p.entityId), entityIdAt);
  }

  lemma EntityPositionAndRotationLayoutPart2(data: seq<byte>, off: nat, p: EntityPositionAndRotation, entityIdAt: nat, deltaXAt: nat, deltaYAt: nat, deltaZAt: nat, yawAt: nat, pitchAt: nat, onGroundAt: nat, end: nat)
    requires p.entityId >= 0
    requires At(data, off, VarintBytes(0x2A) + VarintBytes(p.entityId) + BigEndian(p.deltaX, 2) + BigEndian(p.deltaY, 2) + BigEndian(p.deltaZ, 2) + [p.yaw])
    requires entityIdAt == off + 1 && deltaXAt == entityIdAt + |VarintBytes(p.entityId)| && deltaYAt == deltaXAt + 2 && deltaZAt == deltaYAt + 2 && yawAt == deltaZAt + 2 && pitchAt == yawAt + 1 && onGroundAt == pitchAt + 1
    ensures At(data, off, VarintBytes(0x2A) + VarintBytes(p.entityId) + BigEndian(p.deltaX, 2))
    ensures At(data, deltaYAt, BigEndian(p.deltaY, 2))
    ensures At(data, deltaZAt, BigEndian(p.deltaZ, 2))
    ensures At(data, yawAt, [p.yaw])
  {
    AtSplitAt(data, off, VarintBytes(0x2A) + VarintBytes(p.entityId) + BigEndian(p.deltaX, 2) + BigEndian(p.deltaY, 2) + BigEndian(p.deltaZ, 2), [p.yaw], yawAt);
    AtSplitAt(data, off, VarintBytes(0x2A) + VarintBytes(p.entityId) + BigEndian(p.deltaX, 2) + BigEndian(p.deltaY, 2), BigEndian(p.deltaZ, 2), deltaZAt);
    AtSplitAt(data, off, VarintBytes(0x2A) + VarintBytes(p.entityId) + BigEndian(p.deltaX, 2), BigEndian(p.deltaY, 2), deltaYAt);
  }

  lemma EntityPositionAndRotationLayoutPart3(data: seq<byte>, off: nat, p: EntityPositionAndRotation, entityIdAt: nat, deltaXAt: nat, deltaYAt: nat, deltaZAt: nat, yawAt: nat, pitchAt: nat, onGroundAt: nat, end: nat)
    requires p.entityId >= 0
    requires At(data, off, VarintBytes(0x2A) + VarintBytes(p.entityId) + BigEndian(p.deltaX, 2) + BigEndian(p.deltaY, 2) + BigEndian(p.deltaZ, 2) + [p.yaw] + [p.pitch] + BooleanBytes(p.onGround))
    requires entityIdAt == off + 1 && deltaXAt == entityIdAt + |VarintBytes(p.entityId)| && deltaYAt == deltaXAt + 2 && deltaZAt == deltaYAt + 2 && yawAt == deltaZAt + 2 && pitchAt == yawAt + 1 && onGroundAt == pitchAt + 1
    ensures At(data, off, VarintBytes(0x2A) + VarintBytes(p.entityId) + BigEndian(p.deltaX, 2) + BigEndian(p.deltaY, 2) + BigEndian(p.deltaZ, 2) + [p.yaw])
    ensures At(data, pitchAt, [p.pitch])
    ensures At(data, onGroundAt, BooleanBytes(p.onGround))
  {
    AtSplitAt(data, off, VarintBytes(0x2A) + VarintBytes(p.entityId) + BigEndian(p.deltaX, 2) + BigEndian(p.deltaY, 2) + BigEndian(p.deltaZ, 2) + [p.yaw] + [p.pitch], BooleanBytes(p.onGround), onGroundAt);
    AtSplitAt(data, off, VarintBytes(0x2A) + VarintBytes(p.entityId) + BigEndian(p.deltaX, 2) + BigEndian(p.deltaY, 2) + BigEndian(p.deltaZ, 2) + [p.yaw], [p.pitch], pitchAt);
  }

  /** Where each field of EntityPositionAndRotation sits when its bytes are at `off`. */
  lemma EntityPositionAndRotationLayout(data: seq<byte>, off: nat, p: EntityPositionAndRotation, entityIdAt: nat, deltaXAt: nat, deltaYAt: nat, deltaZAt: nat, yawAt: nat, pitchAt: nat, onGroundAt: nat, end: nat)
    requires p.entityId >= 0
    requires At(data, off, EntityPositionAndRotationBytes(p))
    requires entityIdAt == off + 1 && deltaXAt == entityIdAt + |VarintBytes(p.entityId)| && deltaYAt == deltaXAt + 2 && deltaZAt == deltaYAt + 2 && yawAt == deltaZAt + 2 && pitchAt == yawAt + 1 && onGroundAt == pitchAt + 1 && end == onGroundAt + 1
    ensures end == off + |EntityPositionAndRotationBytes(p)|
    ensures At(data, off, VarintBytes(0x2A)) && At(data, entityIdAt, VarintBytes(p.entityId))
    ensures At(data, deltaXAt, BigEndian(p.deltaX, 2)) && At(data, deltaYAt, BigEndian(p.deltaY, 2))
    ensures At(data, deltaZAt, BigEndian(p.deltaZ, 2)) && At(data, yawAt, [p.yaw])
    ensures At(data, pitchAt, [p.pitch]) && At(data, onGroundAt, BooleanBytes(p.onGround))
  {
    EntityPositionAndRotationLayoutPart3(data, off, p, entityIdAt, deltaXAt, deltaYAt, deltaZAt, yawAt, pitchAt, onGroundAt, end);
    EntityPositionAndRotationLayoutPart2(data, off, p, entityIdAt, deltaXAt, deltaYAt, deltaZAt, yawAt, pitchAt, onGroundAt, end);
    EntityPositionAndRotationLayoutPart1(data, off, p, entityIdAt, deltaXAt, deltaYAt, deltaZAt, yawAt, pitchAt, onGroundAt, end);
  }

  lemma EntityPositionAndRotationReadsBackPart1(data: seq<byte>, off: nat, p: EntityPositionAndRotation, entityIdAt: nat, deltaXAt: nat, deltaYAt: nat, deltaZAt: nat, yawAt: nat, pitchAt: nat, onGroundAt: nat, end: nat)
    requires p.entityId >= 0
    requires At(data, off, VarintBytes(0x2A))
    requires At(data, entityIdAt, VarintBytes(p.entityId))
    requires At(data, deltaXAt, BigEndian(p.deltaX, 2))
    requires entityIdAt == off + 1 && deltaXAt == entityIdAt + |VarintBytes(p.entityId)| && deltaYAt == deltaXAt + 2
    ensures VarintAt(data, off) == Ok((0x2A as int, entityIdAt))
    ensures VarintAt(data, entityIdAt) == Ok((p.entityId as int, deltaXAt))
    ensures SignedAt(data, deltaXAt, 2) == Ok((p.deltaX as int, deltaYAt))
  {
    VarintReadsBack(data, off, 0x2A, entityIdAt);
    VarintReadsBack(data, entityIdAt, p.entityId, deltaXAt);
    ShortRoundTrip(data, deltaXAt, p.deltaX, deltaYAt);
  }

  lemma EntityPositionAndRotationReadsBackPart2(data: seq<byte>, off: nat, p: EntityPositionAndRotation, entityIdAt: nat, deltaXAt: nat, deltaYAt: nat, deltaZAt: nat, yawAt: nat, pitchAt: nat, onGroundAt: nat, end: nat)
    requires At(data, deltaYAt, BigEndian(p.deltaY, 2))
    requires At(data, deltaZAt, BigEndian(p.deltaZ, 2))
    requires At(data, yawAt, [p.yaw])
    requires deltaYAt == deltaXAt + 2 && deltaZAt == deltaYAt + 2 && yawAt == deltaZAt + 2 && pitchAt == yawAt + 1
    ensures SignedAt(data, deltaYAt, 2) == Ok((p.deltaY as int, deltaZAt))
    ensures SignedAt(data, deltaZAt, 2) == Ok((p.deltaZ as int, yawAt))
    ensures ByteAt(data, yawAt) == Ok((p.yaw, pitchAt))
  {
    ShortRoundTrip(data, deltaYAt, p.deltaY, deltaZAt);
    ShortRoundTrip(data, deltaZAt, p.deltaZ, yawAt);
    ByteRoundTrip(data, yawAt, p.yaw);
  }

  lemma EntityPositionAndRotationReadsBackPart3(data: seq<byte>, off: nat, p: EntityPositionAndRotation, entityIdAt: nat, deltaXAt: nat, deltaYAt: nat, deltaZAt: nat, yawAt: nat, pitchAt: nat, onGroundAt: nat, end: nat)
    requires At(data, pitchAt, [p.pitch])
    requires At(data, onGroundAt, BooleanBytes(p.onGround))
    requires pitchAt == yawAt + 1 && onGroundAt == pitchAt + 1 && end == onGroundAt + 1
    ensures ByteAt(data, pitchAt) == Ok((p.pitch, onGroundAt))
    ensures BooleanAt(data, onGroundAt) == Ok((p.onGround, end))
  {
    ByteRoundTrip(data, pitchAt, p.pitch);
    BooleanRoundTrip(data, onGroundAt, p.onGround);
  }

  /** Entity Position And Rotation reads back field by field. */
  lemma EntityPositionAndRotationReadsBack(data: seq<byte>, off: nat, p: EntityPositionAndRotation, entityIdAt: nat, deltaXAt: nat, deltaYAt: nat, deltaZAt: nat, yawAt: nat, pitchAt: nat, onGroundAt: nat, end: nat)
    requires p.entityId >= 0
    requires At(data, off, EntityPositionAndRotationBytes(p))
    requires entityIdAt == off + 1 && deltaXAt == entityIdAt + |VarintBytes(p.entityId)| && deltaYAt == deltaXAt + 2 && deltaZAt == deltaYAt + 2 && yawAt == deltaZAt + 2 && pitchAt == yawAt + 1 && onGroundAt == pitchAt + 1 && end == onGroundAt + 1
    ensures VarintAt(data, off) == Ok((0x2A as int, entityIdAt))
    ensures VarintAt(data, entityIdAt) == Ok((p.entityId as int, deltaXAt))
    ensures SignedAt(data, deltaXAt, 2) == Ok((p.deltaX as int, deltaYAt))
    ensures SignedAt(data, deltaYAt, 2) == Ok((p.deltaY as int, deltaZAt))
    ensures SignedAt(data, deltaZAt, 2) == Ok((p.deltaZ as int, yawAt))
    ensures ByteAt(data, yawAt) == Ok((p.yaw, pitchAt))
    ensures ByteAt(data, pitchAt) == Ok((p.pitch, onGroundAt))
    ensures BooleanAt(data, onGroundAt) == Ok((p.onGround, end))
  {
    EntityPositionAndRotationLayout(data, off, p, entityIdAt, deltaXAt, deltaYAt, deltaZAt, yawAt, pitchAt, onGroundAt, end);
    EntityPositionAndRotationReadsBackPart1(data, off, p, entityIdAt, deltaXAt, deltaYAt, deltaZAt, yawAt, pitchAt, onGroundAt, end);
    EntityPositionAndRotationReadsBackPart2(data, off, p, entityIdAt, deltaXAt, deltaYAt, deltaZAt, yawAt, pitchAt, onGroundAt, end);
    EntityPositionAndRotationReadsBackPart3(data, off, p, entityIdAt, deltaXAt, deltaYAt, deltaZAt, yawAt, pitchAt, onGroundAt, end);
  }

  datatype EntityRotation = EntityRotation(entityId: int32, yaw: byte, pitch: byte, onGround: bool)

  function EntityRotationBytes(p: EntityRotation): seq<byte>
    requires p.entityId >= 0
  {
    VarintBytes(0x2B) + VarintBytes(p.entityId) + [p.yaw] + [p.pitch] + BooleanBytes(p.onGround)
  }

  method EncodeEntityRotation(p: EntityRotation, w: Writer)
    requires p.entityId >= 0
    modifies w
    ensures w.data == old(w.data) + EntityRotationBytes(p)
  {
    ghost var d0 := w.data;
    w.WriteVarint(0x2B);
    w.WriteVarint(p.entityId);
    Append3(d0, VarintBytes(0x2B), VarintBytes(p.entityId));
    w.WriteAngle(p.yaw);
    Append3(d0, VarintBytes(0x2B) + VarintBytes(p.entityId), [p.yaw]);
    w.WriteAngle(p.pitch);
    Append3(d0, VarintBytes(0x2B) + VarintBytes(p.entityId) + [p.yaw], [p.pitch]);
    w.WriteBoolean(p.onGround);
    Append3(d0, VarintBytes(0x2B) + VarintBytes(p.entityId) + [p.yaw] + [p.pitch], BooleanBytes(p.onGround));
  }

  lemma EntityRotationLayoutPart1(data: seq<byte>, off: nat, p: EntityRotation, entityIdAt: nat, yawAt: nat, pitchAt: nat, onGroundAt: nat, end: nat)
    requires p.entityId >= 0
    requires At(data, off, VarintBytes(0x2B) + VarintBytes(p.entityId) + [p.yaw])
    requires entityIdAt == off + 1 && yawAt == entityIdAt + |VarintBytes(p.entityId)| && pitchAt == yawAt + 1 && onGroundAt == pitchAt + 1
    ensures At(data, off, VarintBytes(0x2B))
    ensures At(data, entityIdAt, VarintBytes(p.entityId))
    ensures At(data, yawAt, [p.yaw])
  {
    AtSplitAt(data, off, VarintBytes(0x2B) + VarintBytes(p.entityId), [p.yaw], yawAt);
    AtSplitAt(data, off, VarintBytes(0x2B), VarintBytes(p.entityId), entityIdAt);
  }

  lemma EntityRotationLayoutPart2(data: seq<byte>, off: nat, p: EntityRotation, entityIdAt: nat, yawAt: nat, pitchAt: nat, onGroundAt: nat, end: nat)
    requires p.entityId >= 0
    requires At(data, off, VarintBytes(0x2B) + VarintBytes(p.entityId) + [p.yaw] + [p.pitch] + BooleanBytes(p.onGround))
    requires entityIdAt == off + 1 && yawAt == entityIdAt + |VarintBytes(p.entityId)| && pitchAt == yawAt + 1 && onGroundAt == pitchAt + 1
    ensures At(data, off, VarintBytes(0x2B) + VarintBytes(p.entityId) + [p.yaw])
    ensures At(data, pitchAt, [p.pitch])
    ensures At(data, onGroundAt, BooleanBytes(p.onGround))
  {
    AtSplitAt(data, off, VarintBytes(0x2B) + VarintBytes(p.entityId) + [p.yaw] + [p.pitch], BooleanBytes(p.onGround), onGroundAt);
    AtSplitAt(data, off, VarintBytes(0x2B) + VarintBytes(p.entityId) + [p.yaw], [p.pitch], pitchAt);
  }

  /** Where each field of EntityRotation sits when its bytes are at `off`. */
  lemma EntityRotationLayout(data: seq<byte>, off: nat, p: EntityRotation, entityIdAt: nat, yawAt: nat, pitchAt: nat, onGroundAt: nat, end: nat)
    requires p.entityId >= 0
    requires At(data, off, EntityRotationBytes(p))
    requires entityIdAt == off + 1 && yawAt == entityIdAt + |VarintBytes(p.entityId)| && pitchAt == yawAt + 1 && onGroundAt == pitchAt + 1 && end == onGroundAt + 1
    ensures end == off + |EntityRotationBytes(p)|
    ensures At(data, off, VarintBytes(0x2B)) && At(data, entityIdAt, VarintBytes(p.entityId))
    ensures At(data, yawAt, [p.yaw]) && At(data, pitchAt, [p.pitch])
    ensures At(data, onGroundAt, BooleanBytes(p.onGround))
  {
    EntityRotationLayoutPart2(data, off, p, entityIdAt, yawAt, pitchAt, onGroundAt, end);
    EntityRotationLayoutPart1(data, off, p, entityIdAt, yawAt, pitchAt, onGroundAt, end);
  }

  lemma EntityRotationReadsBackPart1(data: seq<byte>, off: nat, p: EntityRotation, entityIdAt: nat, yawAt: nat, pitchAt: nat, onGroundAt: nat, end: nat)
    requires p.entityId >= 0
    requires At(data, off, VarintBytes(0x2B))
    requires At(data, entityIdAt, VarintBytes(p.entityId))
    requires At(data, yawAt, [p.yaw])
    requires entityIdAt == off + 1 && yawAt == entityIdAt + |VarintBytes(p.entityId)| && pitchAt == yawAt + 1
    ensures VarintAt(data, off) == Ok((0x2B as int, entityIdAt))
    ensures VarintAt(data, entityIdAt) == Ok((p.entityId as int, yawAt))
    ensures ByteAt(data, yawAt) == Ok((p.yaw, pitchAt))
  {
    VarintReadsBack(data, off, 0x2B, entityIdAt);
    VarintReadsBack(data, entityIdAt, p.entityId, yawAt);
    ByteRoundTrip(data, yawAt, p.yaw);
  }

  lemma EntityRotationReadsBackPart2(data: seq<byte>, off: nat, p: EntityRotation, entityIdAt: nat, yawAt: nat, pitchAt: nat, onGroundAt: nat, end: nat)
    requires At(data, pitchAt, [p.pitch])
    requires At(data, onGroundAt, BooleanBytes(p.onGround))
    requires pitchAt == yawAt + 1 && onGroundAt == pitchAt + 1 && end == onGroundAt + 1
    ensures ByteAt(data, pitchAt) == Ok((p.pitch, onGroundAt))
    ensures BooleanAt(data, onGroundAt) == Ok((p.onGround, end))
  {
    ByteRoundTrip(data, pitchAt, p.pitch);
    BooleanRoundTrip(data, onGroundAt, p.onGround);
  }

  /** Entity Rotation reads back as the id, the angles and the ground flag. */
  lemma EntityRotationReadsBack(data: seq<byte>, off: nat, p: EntityRotation, entityIdAt: nat, yawAt: nat, pitchAt: nat, onGroundAt: nat, end: nat)
    requires p.entityId >= 0
    requires At(data, off, EntityRotationBytes(p))
    requires entityIdAt == off + 1 && yawAt == entityIdAt + |VarintBytes(p.entityId)| && pitchAt == yawAt + 1 && onGroundAt == pitchAt + 1 && end == onGroundAt + 1
    ensures VarintAt(data, off) == Ok((0x2B as int, entityIdAt))
    ensures VarintAt(data, entityIdAt) == Ok((p.entityId as int, yawAt))
    ensures ByteAt(data, yawAt) == Ok((p.yaw, pitchAt))
    ensures ByteAt(data, pitchAt) == Ok((p.pitch, onGroundAt))
    ensures BooleanAt(data, onGroundAt) == Ok((p.onGround, end))
  {
    EntityRotationLayout(data, off, p, entityIdAt, yawAt, pitchAt, onGroundAt, end);
    EntityRotationReadsBackPart1(data, off, p, entityIdAt, yawAt, pitchAt, onGroundAt, end);
    EntityRotationReadsBackPart2(data, off, p, entityIdAt, yawAt, pitchAt, onGroundAt, end);
  }

  datatype EntityMovement = EntityMovement(entityId: int32)

  function EntityMovementBytes(p: EntityMovement): seq<byte>
    requires p.entityId >= 0
  {
    VarintBytes(0x2C) + VarintBytes(p.entityId)
  }

  method EncodeEntityMovement(p: EntityMovement, w: Writer)
    requires p.entityId >= 0
    modifies w
    ensures w.data == old(w.data) + EntityMovementBytes(p)
  {
    ghost var d0 := w.data;
    w.WriteVarint(0x2C);
    w.WriteVarint(p.entityId);
    Append3(d0, VarintBytes(0x2C), VarintBytes(p.entityId));
  }

  /** Where each field of EntityMovement sits when its bytes are at `off`. */
  lemma EntityMovementLayout(data: seq<byte>, off: nat, p: EntityMovement, entityIdAt: nat, end: nat)
    requires p.entityId >= 0
    requires At(data, off, EntityMovementBytes(p))
    requires entityIdAt == off + 1 && end == entityIdAt + |VarintBytes(p.entityId)|
    ensures end == off + |EntityMovementBytes(p)|
    ensures At(data, off, VarintBytes(0x2C)) && At(data, entityIdAt, VarintBytes(p.entityId))
  {
    AtSplitAt(data, off, VarintBytes(0x2C), VarintBytes(p.entityId), entityIdAt);
  }

  /** Entity Movement reads back as the id. */
  lemma EntityMovementReadsBack(data: seq<byte>, off: nat, p: EntityMovement, entityIdAt: nat, end: nat)
    requires p.entityId >= 0
    requires At(data, off, EntityMovementBytes(p))
    requires entityIdAt == off + 1 && end == entityIdAt + |VarintBytes(p.entityId)|
    ensures VarintAt(data, off) == Ok((0x2C as int, entityIdAt))
    ensures VarintAt(data, entityIdAt) == Ok((p.entityId as int, end))
  {
    EntityMovementLayout(data, off, p, entityIdAt, end);
    VarintReadsBack(data, off, 0x2C, entityIdAt);
    VarintReadsBack(data, entityIdAt, p.entityId, end);
  }

  /** Entity ids the varint writer finishes: none negative. */
  predicate IdsWritable(ids: seq<int32>)
  {
    forall i :: 0 <= i < |ids| ==> ids[i] >= 0
  }

  /** The ids as varints, one after the other. */
  function IdsBytes(ids: seq<int32>): seq<byte>
    requires IdsWritable(ids)
  {
    if ids == [] then [] else IdsBytes(ids[..|ids| - 1]) + VarintBytes(ids[|ids| - 1])
  }

  datatype DestroyEntities = DestroyEntities(entityIds: seq<int32>)

  function DestroyEntitiesBytes(p: DestroyEntities): seq<byte>
    requires IdsWritable(p.entityIds) && |p.entityIds| < 0x8000_0000
  {
    VarintBytes(0x38) + VarintBytes(|p.entityIds|) + IdsBytes(p.entityIds)
  }

  /** The count, converted to `int32`, then a varint per id. */
  method EncodeDestroyEntities(p: DestroyEntities, w: Writer)
    requires IdsWritable(p.entityIds) && |p.entityIds| < 0x8000_0000
    modifies w
    ensures w.data == old(w.data) + DestroyEntitiesBytes(p)
  {
    ghost var d0 := w.data;
    w.WriteVarint(0x38);
    w.WriteVarint(|p.entityIds|);
    Append3(d0, VarintBytes(0x38), VarintBytes(|p.entityIds|));
    ghost var start := w.data;
    var i := 0;
    while i < |p.entityIds|
      invariant 0 <= i <= |p.entityIds|
      invariant w.data == start + IdsBytes(p.entityIds[..i])
    {
      w.WriteVarint(p.entityIds[i]);
      assert p.entityIds[..i + 1][..i] == p.entityIds[..i];
      Append3(start, IdsBytes(p.entityIds[..i]), VarintBytes(p.entityIds[i]));
      i := i + 1;
    }
    assert p.entityIds[..i] == p.entityIds;
    Append3(d0, VarintBytes(0x38) + VarintBytes(|p.entityIds|), IdsBytes(p.entityIds));
  }

  /** The client's reading of `n` entity ids. */
  function IdsAt(data: seq<byte>, off: nat, n: nat): (r: Result<(seq<int32>, nat)>)
    requires off <= |data|
    ensures r.Ok? ==> off <= r.value.1 <= |data| && |r.value.0| == n
    decreases n
  {
    if n == 0 then Ok(([], off))
    else
      match IdsAt(data, off, n - 1)
      case Err(e) => Err(e)
      case Ok((ids, next)) =>
        match Int32At(data, next)
        case Err(e) => Err(e)
        case Ok((id, end)) => Ok((ids + [id], end))
  }

  /** One more id read after `n - 1` of them. */
  lemma IdsAtStep(data: seq<byte>, off: nat, n: nat, init: seq<int32>, mid: nat, last: int32, end: nat)
    requires off <= mid <= |data| && n > 0
    requires IdsAt(data, off, n - 1) == Ok((init, mid))
    requires Int32At(data, mid) == Ok((last, end))
    ensures IdsAt(data, off, n) == Ok((init + [last], end))
  {
  }

  lemma {:induction false} IdsReadBack(data: seq<byte>, off: nat, ids: seq<int32>, end: nat)
    requires IdsWritable(ids) && At(data, off, IdsBytes(ids)) && end == off + |IdsBytes(ids)|
    ensures IdsAt(data, off, |ids|) == Ok((ids, end))
  {
    if ids != [] {
      var init, last := ids[..|ids| - 1], ids[|ids| - 1];
      InitLast(ids);
      var mid := off + |IdsBytes(init)|;
      AtSplitAt(data, off, IdsBytes(init), VarintBytes(last), mid);
      assert IdsWritable(init) by {
        forall i | 0 <= i < |init| ensures init[i] == ids[i] { }
      }
      IdsReadBack(data, off, init, mid);
      Int32RoundTrip(data, mid, last, end);
      IdsAtStep(data, off, |ids|, init, mid, last, end);
    }
  }

  /** Destroy Entities reads back as the count, then the ids. */
  lemma DestroyEntitiesReadsBack(data: seq<byte>, off: nat, p: DestroyEntities, countAt: nat, idsAt: nat, end: nat)
    requires IdsWritable(p.entityIds) && |p.entityIds| < 0x8000_0000
    requires At(data, off, DestroyEntitiesBytes(p))
    requires countAt == off + 1 && idsAt == countAt + |VarintBytes(|p.entityIds|)| && end == idsAt + |IdsBytes(p.entityIds)|
    ensures VarintAt(data, off) == Ok((0x38 as int, countAt))
    ensures VarintAt(data, countAt) == Ok((|p.entityIds|, idsAt))
    ensures IdsAt(data, idsAt, |p.entityIds|) == Ok((p.entityIds, end))
  {
    var id, n, b := VarintBytes(0x38), VarintBytes(|p.entityIds|), IdsBytes(p.entityIds);
    AtSplit3(data, off, id, n, b, countAt, idsAt);
    VarintReadsBack(data, off, 0x38, countAt);
    VarintReadsBack(data, countAt, |p.entityIds|, idsAt);
    IdsReadBack(data, idsAt, p.entityIds, end);
  }

  datatype EntityHeadLook = EntityHeadLook(entityId: int32, headYaw: byte)

  function EntityHeadLookBytes(p: EntityHeadLook): seq<byte>
    requires p.entityId >= 0
  {
    VarintBytes(0x3C) + VarintBytes(p.entityId) + [p.headYaw]
  }

  method EncodeEntityHeadLook(p: EntityHeadLook, w: Writer)
    requires p.entityId >= 0
    modifies w
    ensures w.data == old(w.data) + EntityHeadLookBytes(p)
  {
    ghost var d0 := w.data;
    w.WriteVarint(0x3C);
    w.WriteVarint(p.entityId);
    Append3(d0, VarintBytes(0x3C), VarintBytes(p.entityId));
    w.WriteAngle(p.headYaw);
    Append3(d0, VarintBytes(0x3C) + VarintBytes(p.entityId), [p.headYaw]);
  }

  /** Where each field of EntityHeadLook sits when its bytes are at `off`. */
  lemma EntityHeadLookLayout(data: seq<byte>, off: nat, p: EntityHeadLook, entityIdAt: nat, headYawAt: nat, end: nat)
    requires p.entityId >= 0
    requires At(data, off, EntityHeadLookBytes(p))
    requires entityIdAt == off + 1 && headYawAt == entityIdAt + |VarintBytes(p.entityId)| && end == headYawAt + 1
    ensures end == off + |EntityHeadLookBytes(p)|
    ensures At(data, off, VarintBytes(0x3C)) && At(data, entityIdAt, VarintBytes(p.entityId))
    ensures At(data, headYawAt, [p.headYaw])
  {
    AtSplitAt(data, off, VarintBytes(0x3C) + VarintBytes(p.entityId), [p.headYaw], headYawAt);
    AtSplitAt(data, off, VarintBytes(0x3C), VarintBytes(p.entityId), entityIdAt);
  }

  /** Entity Head Look reads back as the id, then the head yaw. */
  lemma EntityHeadLookReadsBack(data: seq<byte>, off: nat, p: EntityHeadLook, entityIdAt: nat, headYawAt: nat, end: nat)
    requires p.entityId >= 0
    requires At(data, off, EntityHeadLookBytes(p))
    requires entityIdAt == off + 1 && headYawAt == entityIdAt + |VarintBytes(p.entityId)| && end == headYawAt + 1
    ensures VarintAt(data, off) == Ok((0x3C as int, entityIdAt))
    ensures VarintAt(data, entityIdAt) == Ok((p.entityId as int, headYawAt))
    ensures ByteAt(data, headYawAt) == Ok((p.headYaw, end))
  {
    EntityHeadLookLayout(data, off, p, entityIdAt, headYawAt, end);
    VarintReadsBack(data, off, 0x3C, entityIdAt);
    VarintReadsBack(data, entityIdAt, p.entityId, headYawAt);
    ByteRoundTrip(data, headYawAt, p.headYaw);
  }

  /** The `IMetadata` implementations: an entity, a living entity or a
    * player, each writing its own entries. */
  datatype MetadataSource = OfEntity(entity: Entity) | OfLiving(living: Living) | OfPlayer(player: Player)

  /** The pose of the entity the metadata describes. */
  function Pose(m: MetadataSource): int32
  {
    match m
    case OfEntity(e) => e.pose
    case OfLiving(l) => l.entity.pose
    case OfPlayer(p) => p.living.entity.pose
  }

  /** The entries `WriteMetadata` writes for each kind. */
  function SourceEntries(m: MetadataSource): seq<(byte, Value)>
  {
    match m
    case OfEntity(e) => EntityEntries(e)
    case OfLiving(l) => LivingEntries(l)
    case OfPlayer(p) => PlayerEntries(p)
  }

  /** The dynamic dispatch of `r.Metadata.WriteMetadata(ew)`. */
  method WriteMetadata(m: MetadataSource, mw: EntityMetadataWriter)
    requires Pose(m) >= 0
    modifies mw.w
    ensures AllWritable(SourceEntries(m))
    ensures mw.w.data == old(mw.w.data) + EntriesBytes(SourceEntries(m))
  {
    match m
    case OfEntity(e) => WriteEntityMetadata(e, mw);
    case OfLiving(l) => WriteLivingMetadata(l, mw);
    case OfPlayer(p) => WritePlayerMetadata(p, mw);
  }

  /** Every kind's entries read back: their indices are distinct from the
    * terminator and their values are within the client's limits. */
  lemma SourceEncodable(m: MetadataSource)
    requires Pose(m) >= 0
    ensures AllWritable(SourceEntries(m)) && AllEncodable(SourceEntries(m))
  {
    var es := SourceEntries(m);
    match m
    case OfEntity(e) =>
      assert es[0].0 == 0 && es[1].0 == 6;
    case OfLiving(l) =>
      assert es[0].0 == 0 && es[1].0 == 6 && es[2].0 == 7;
    case OfPlayer(p) =>
      assert es[0].0 == 0 && es[1].0 == 6 && es[2].0 == 7 && es[3].0 == 16 && es[4].0 == 17;
  }

  datatype EntityMetadata = EntityMetadata(entityId: int32, metadata: MetadataSource)

  function EntityMetadataBytes(p: EntityMetadata): seq<byte>
    requires p.entityId >= 0 && Pose(p.metadata) >= 0
  {
    SourceEncodable(p.metadata);
    VarintBytes(0x44) + VarintBytes(p.entityId) + MetadataBytes(SourceEntries(p.metadata))
  }

  /** The id, then the entries `WriteMetadata` writes, closed by `Done`. */
  method EncodeEntityMetadata(p: EntityMetadata, w: Writer)
    requires p.entityId >= 0 && Pose(p.metadata) >= 0
    modifies w
    ensures w.data == old(w.data) + EntityMetadataBytes(p)
  {
    ghost var d0 := w.data;
    w.WriteVarint(0x44);
    w.WriteVarint(p.entityId);
    Append3(d0, VarintBytes(0x44), VarintBytes(p.entityId));
    ghost var d1 := w.data;
    var ew := new EntityMetadataWriter(w);
    WriteMetadata(p.metadata, ew);
    ew.Done();
    Append3(d1, EntriesBytes(SourceEntries(p.metadata)), [EndIndex]);
    Append3(d0, VarintBytes(0x44) + VarintBytes(p.entityId), MetadataBytes(SourceEntries(p.metadata)));
  }

  /** The id and a metadata list after it read back. */
  lemma IdAndMetadataReadBack(data: seq<byte>, off: nat, entityId: int32, es: seq<(byte, Value)>, metadataAt: nat, end: nat)
    requires entityId >= 0 && AllWritable(es) && AllEncodable(es)
    requires At(data, off, VarintBytes(entityId) + MetadataBytes(es))
    requires metadataAt == off + |VarintBytes(entityId)| && end == metadataAt + |MetadataBytes(es)|
    ensures VarintAt(data, off) == Ok((entityId as int, metadataAt))
    ensures MetadataAt(data, metadataAt) == Ok((es, end))
  {
    AtSplit(data, off, VarintBytes(entityId), MetadataBytes(es));
    VarintReadsBack(data, off, entityId, metadataAt);
    MetadataRoundTrip(data, metadataAt, es, end);
  }

  /** Entity Metadata reads back as the entity id, then the entries of the
    * entity, living entity or player it was given. */
  lemma EntityMetadataReadsBack(data: seq<byte>, off: nat, p: EntityMetadata, entityIdAt: nat, metadataAt: nat, end: nat)
    requires p.entityId >= 0 && Pose(p.metadata) >= 0
    requires At(data, off, EntityMetadataBytes(p))
    requires entityIdAt == off + 1 && metadataAt == entityIdAt + |VarintBytes(p.entityId)|
    requires end == off + |EntityMetadataBytes(p)|
    ensures VarintAt(data, off) == Ok((0x44 as int, entityIdAt))
    ensures VarintAt(data, entityIdAt) == Ok((p.entityId as int, metadataAt))
    ensures MetadataAt(data, metadataAt) == Ok((SourceEntries(p.metadata), end))
  {
    SourceEncodable(p.metadata);
    var es := SourceEntries(p.metadata);
    var id, e, m := VarintBytes(0x44), VarintBytes(p.entityId), MetadataBytes(es);
    Append3(id, e, m);
    AtSplit(data, off, id, e + m);
    VarintRoundTrip(data, off, 0x44);
    IdAndMetadataReadBack(data, entityIdAt, p.entityId, es, metadataAt, end);
  }

  datatype EntityTeleport = EntityTeleport(entityId: int32, x: uint64, y: uint64, z: uint64, yaw: byte, pitch: byte, onGround: bool)

  function EntityTeleportBytes(p: EntityTeleport): seq<byte>
    requires p.entityId >= 0
  {
    VarintBytes(0x57) + VarintBytes(p.entityId) + BigEndian(p.x, 8) + BigEndian(p.y, 8) + BigEndian(p.z, 8) + [p.yaw] + [p.pitch] + BooleanBytes(p.onGround)
  }

  method EncodeEntityTeleport(p: EntityTeleport, w: Writer)
    requires p.entityId >= 0
    modifies w
    ensures w.data == old(w.data) + EntityTeleportBytes(p)
  {
    ghost var d0 := w.data;
    w.WriteVarint(0x57);
    w.WriteVarint(p.entityId);
    Append3(d0, VarintBytes(0x57), VarintBytes(p.entityId));
    w.WriteDouble(p.x);
    Append3(d0, VarintBytes(0x57) + VarintBytes(p.entityId), BigEndian(p.x, 8));
    w.WriteDouble(p.y);
    Append3(d0, VarintBytes(0x57) + VarintBytes(p.entityId) + BigEndian(p.x, 8), BigEndian(p.y, 8));
    w.WriteDouble(p.z);
    Append3(d0, VarintBytes(0x57) + VarintBytes(p.entityId) + BigEndian(p.x, 8) + BigEndian(p.y, 8), BigEndian(p.z, 8));
    w.WriteAngle(p.yaw);
    Append3(d0, VarintBytes(0x57) + VarintBytes(p.entityId) + BigEndian(p.x, 8) + BigEndian(p.y, 8) + BigEndian(p.z, 8), [p.yaw]);
    w.WriteAngle(p.pitch);
    Append3(d0, VarintBytes(0x57) + VarintBytes(p.entityId) + BigEndian(p.x, 8) + BigEndian(p.y, 8) + BigEndian(p.z, 8) + [p.yaw], [p.pitch]);
    w.WriteBoolean(p.onGround);
    Append3(d0, VarintBytes(0x57) + VarintBytes(p.entityId) + BigEndian(p.x, 8) + BigEndian(p.y, 8) + BigEndian(p.z, 8) + [p.yaw] + [p.pitch], BooleanBytes(p.onGround));
  }

  lemma EntityTeleportLayoutPart1(data: seq<byte>, off: nat, p: EntityTeleport, entityIdAt: nat, xAt: nat, yAt: nat, zAt: nat, yawAt: nat, pitchAt: nat, onGroundAt: nat, end: nat)
    requires p.entityId >= 0
    requires At(data, off, VarintBytes(0x57) + VarintBytes(p.entityId) + BigEndian(p.x, 8))
    requires entityIdAt == off + 1 && xAt == entityIdAt + |VarintBytes(p.entityId)| && yAt == xAt + 8 && zAt == yAt + 8 && yawAt == zAt + 8 && pitchAt == yawAt + 1 && onGroundAt == pitchAt + 1
    ensures At(data, off, VarintBytes(0x57))
    ensures At(data, entityIdAt, VarintBytes(p.entityId))
    ensures At(data, xAt, BigEndian(p.x, 8))
  {
    AtSplitAt(data, off, VarintBytes(0x57) + VarintBytes(p.entityId), BigEndian(p.x, 8), xAt);
    AtSplitAt(data, off, VarintBytes(0x57), VarintBytes(p.entityId), entityIdAt);
  }

  lemma EntityTeleportLayoutPart2(data: seq<byte>, off: nat, p: EntityTeleport, entityIdAt: nat, xAt: nat, yAt: nat, zAt: nat, yawAt: nat, pitchAt: nat, onGroundAt: nat, end: nat)
    requires p.entityId >= 0
    requires At(data, off, VarintBytes(0x57) + VarintBytes(p.entityId) + BigEndian(p.x, 8) + BigEndian(p.y, 8) + BigEndian(p.z, 8) + [p.yaw])
    requires entityIdAt == off + 1 && xAt == entityIdAt + |VarintBytes(p.entityId)| && yAt == xAt + 8 && zAt == yAt + 8 && yawAt == zAt + 8 && pitchAt == yawAt + 1 && onGroundAt == pitchAt + 1
    ensures At(data, off, VarintBytes(0x57) + VarintBytes(p.entityId) + BigEndian(p.x, 8))
    ensures At(data, yAt, BigEndian(p.y, 8))
    ensures At(data, zAt, BigEndian(p.z, 8))
    ensures At(data, yawAt, [p.yaw])
  {
    AtSplitAt(data, off, VarintBytes(0x57) + VarintBytes(p.entityId) + BigEndian(p.x, 8) + BigEndian(p.y, 8) + BigEndian(p.z, 8), [p.yaw], yawAt);
    AtSplitAt(data, off, VarintBytes(0x57) + VarintBytes(p.entityId) + BigEndian(p.x, 8) + BigEndian(p.y, 8), BigEndian(p.z, 8), zAt);
    AtSplitAt(data, off, VarintBytes(0x57) + VarintBytes(p.entityId) + BigEndian(p.x, 8), BigEndian(p.y, 8), yAt);
  }

  lemma EntityTeleportLayoutPart3(data: seq<byte>, off: nat, p: EntityTeleport, entityIdAt: nat, xAt: nat, yAt: nat, zAt: nat, yawAt: nat, pitchAt: nat, onGroundAt: nat, end: nat)
    requires p.entityId >= 0
    requires At(data, off, VarintBytes(0x57) + VarintBytes(p.entityId) + BigEndian(p.x, 8) + BigEndian(p.y, 8) + BigEndian(p.z, 8) + [p.yaw] + [p.pitch] + BooleanBytes(p.onGround))
    requires entityIdAt == off + 1 && xAt == entityIdAt + |VarintBytes(p.entityId)| && yAt == xAt + 8 && zAt == yAt + 8 && yawAt == zAt + 8 && pitchAt == yawAt + 1 && onGroundAt == pitchAt + 1
    ensures At(data, off, VarintBytes(0x57) + VarintBytes(p.entityId) + BigEndian(p.x, 8) + BigEndian(p.y, 8) + BigEndian(p.z, 8) + [p.yaw])
    ensures At(data, pitchAt, [p.pitch])
    ensures At(data, onGroundAt, BooleanBytes(p.onGround))
  {
    AtSplitAt(data, off, VarintBytes(0x57) + VarintBytes(p.entityId) + BigEndian(p.x, 8) + BigEndian(p.y, 8) + BigEndian(p.z, 8) + [p.yaw] + [p.pitch], BooleanBytes(p.onGround), onGroundAt);
    AtSplitAt(data, off, VarintBytes(0x57) + VarintBytes(p.entityId) + BigEndian(p.x, 8) + BigEndian(p.y, 8) + BigEndian(p.z, 8) + [p.yaw], [p.pitch], pitchAt);
  }

  /** Where each field of EntityTeleport sits when its bytes are at `off`. */
  lemma EntityTeleportLayout(data: seq<byte>, off: nat, p: EntityTeleport, entityIdAt: nat, xAt: nat, yAt: nat, zAt: nat, yawAt: nat, pitchAt: nat, onGroundAt: nat, end: nat)
    requires p.entityId >= 0
    requires At(data, off, EntityTeleportBytes(p))
    requires entityIdAt == off + 1 && xAt == entityIdAt + |VarintBytes(p.entityId)| && yAt == xAt + 8 && zAt == yAt + 8 && yawAt == zAt + 8 && pitchAt == yawAt + 1 && onGroundAt == pitchAt + 1 && end == onGroundAt + 1
    ensures end == off + |EntityTeleportBytes(p)|
    ensures At(data, off, VarintBytes(0x57)) && At(data, entityIdAt, VarintBytes(p.entityId))
    ensures At(data, xAt, BigEndian(p.x, 8)) && At(data, yAt, BigEndian(p.y, 8))
    ensures At(data, zAt, BigEndian(p.z, 8)) && At(data, yawAt, [p.yaw])
    ensures At(data, pitchAt, [p.pitch]) && At(data, onGroundAt, BooleanBytes(p.onGround))
  {
    EntityTeleportLayoutPart3(data, off, p, entityIdAt, xAt, yAt, zAt, yawAt, pitchAt, onGroundAt, end);
    EntityTeleportLayoutPart2(data, off, p, entityIdAt, xAt, yAt, zAt, yawAt, pitchAt, onGroundAt, end);
    EntityTeleportLayoutPart1(data, off, p, entityIdAt, xAt, yAt, zAt, yawAt, pitchAt, onGroundAt, end);
  }

  lemma EntityTeleportReadsBackPart1(data: seq<byte>, off: nat, p: EntityTeleport, entityIdAt: nat, xAt: nat, yAt: nat, zAt: nat, yawAt: nat, pitchAt: nat, onGroundAt: nat, end: nat)
    requires p.entityId >= 0
    requires At(data, off, VarintBytes(0x57))
    requires At(data, entityIdAt, VarintBytes(p.entityId))
    requires At(data, xAt, BigEndian(p.x, 8))
    requires entityIdAt == off + 1 && xAt == entityIdAt + |VarintBytes(p.entityId)| && yAt == xAt + 8
    ensures VarintAt(data, off) == Ok((0x57 as int, entityIdAt))
    ensures VarintAt(data, entityIdAt) == Ok((p.entityId as int, xAt))
    ensures UnsignedAt(data, xAt, 8) == Ok((p.x as nat, yAt))
  {
    VarintReadsBack(data, off, 0x57, entityIdAt);
    VarintReadsBack(data, entityIdAt, p.entityId, xAt);
    DoubleRoundTrip(data, xAt, p.x, yAt);
  }

  lemma EntityTeleportReadsBackPart2(data: seq<byte>, off: nat, p: EntityTeleport, entityIdAt: nat, xAt: nat, yAt: nat, zAt: nat, yawAt: nat, pitchAt: nat, onGroundAt: nat, end: nat)
    requires At(data, yAt, BigEndian(p.y, 8))
    requires At(data, zAt, BigEndian(p.z, 8))
    requires At(data, yawAt, [p.yaw])
    requires yAt == xAt + 8 && zAt == yAt + 8 && yawAt == zAt + 8 && pitchAt == yawAt + 1
    ensures UnsignedAt(data, yAt, 8) == Ok((p.y as nat, zAt))
    ensures UnsignedAt(data, zAt, 8) == Ok((p.z as nat, yawAt))
    ensures ByteAt(data, yawAt) == Ok((p.yaw, pitchAt))
  {
    DoubleRoundTrip(data, yAt, p.y, zAt);
    DoubleRoundTrip(data, zAt, p.z, yawAt);
    ByteRoundTrip(data, yawAt, p.yaw);
  }

  lemma EntityTeleportReadsBackPart3(data: seq<byte>, off: nat, p: EntityTeleport, entityIdAt: nat, xAt: nat, yAt: nat, zAt: nat, yawAt: nat, pitchAt: nat, onGroundAt: nat, end: nat)
    requires At(data, pitchAt, [p.pitch])
    requires At(data, onGroundAt, BooleanBytes(p.onGround))
    requires pitchAt == yawAt + 1 && onGroundAt == pitchAt + 1 && end == onGroundAt + 1
    ensures ByteAt(data, pitchAt) == Ok((p.pitch, onGroundAt))
    ensures BooleanAt(data, onGroundAt) == Ok((p.onGround, end))
  {
    ByteRoundTrip(data, pitchAt, p.pitch);
    BooleanRoundTrip(data, onGroundAt, p.onGround);
  }

  /** Entity Teleport reads back as the id, the coordinates, the angles and the ground flag. */
  lemma EntityTeleportReadsBack(data: seq<byte>, off: nat, p: EntityTeleport, entityIdAt: nat, xAt: nat, yAt: nat, zAt: nat, yawAt: nat, pitchAt: nat, onGroundAt: nat, end: nat)
    requires p.entityId >= 0
    requires At(data, off, EntityTeleportBytes(p))
    requires entityIdAt == off + 1 && xAt == entityIdAt + |VarintBytes(p.entityId)| && yAt == xAt + 8 && zAt == yAt + 8 && yawAt == zAt + 8 && pitchAt == yawAt + 1 && onGroundAt == pitchAt + 1 && end == onGroundAt + 1
    ensures VarintAt(data, off) == Ok((0x57 as int, entityIdAt))
    ensures VarintAt(data, entityIdAt) == Ok((p.entityId as int, xAt))
    ensures UnsignedAt(data, xAt, 8) == Ok((p.x as nat, yAt))
    ensures UnsignedAt(data, yAt, 8) == Ok((p.y as nat, zAt))
    ensures UnsignedAt(data, zAt, 8) == Ok((p.z as nat, yawAt))
    ensures ByteAt(data, yawAt) == Ok((p.yaw, pitchAt))
    ensures ByteAt(data, pitchAt) == Ok((p.pitch, onGroundAt))
    ensures BooleanAt(data, onGroundAt) == Ok((p.onGround, end))
  {
    EntityTeleportLayout(data, off, p, entityIdAt, xAt, yAt, zAt, yawAt, pitchAt, onGroundAt, end);
    EntityTeleportReadsBackPart1(data, off, p, entityIdAt, xAt, yAt, zAt, yawAt, pitchAt, onGroundAt, end);
    EntityTeleportReadsBackPart2(data, off, p, entityIdAt, xAt, yAt, zAt, yawAt, pitchAt, onGroundAt, end);
    EntityTeleportReadsBackPart3(data, off, p, entityIdAt, xAt, yAt, zAt, yawAt, pitchAt, onGroundAt, end);
  }
}
