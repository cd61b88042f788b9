/** Entities (minecraft/entity/entity.go, living.go and player.go): the
  * state the server keeps per entity, the facing derived from the head yaw,
  * and the metadata entries each kind of entity writes. A `Living` embeds
  * an `Entity` and a `Player` embeds a `Living`, as in the source. */
module Entities {
  import opened Bytes
  import opened Wrappers
  import opened Metadata
  import Readers
  import Writers

  /** A point of `math.Point`; only the origin is ever built here. */
  datatype Vec3 = Vec3(x: real, y: real, z: real)

  const Origin := Vec3(0.0, 0.0, 0.0)

  /** The faces of a block, numbered as on the wire: 0 bottom, 1 top,
    * 2 north, 3 south, 4 west, 5 east. */
  datatype Face = Bottom | Top | North | South | West | East

  function FaceId(f: Face): (r: nat)
    ensures r < 6
  {
    match f
    case Bottom => 0
    case Top => 1
    case North => 2
    case South => 3
    case West => 4
    case East => 5
  }

  /** Poses are written as varints; standing is 0. */
  const PoseStanding: int32 := 0

  // The entity flag bits.
  const IsOnFire: bv8 := 0x01
  const IsSprinting: bv8 := 0x08
  const HasGlowingEffect: bv8 := 0x40

  datatype Entity = Entity(
    eid: int32,
    uuid: seq<byte>,
    moved: bool,
    rotated: bool,
    onGroundChanged: bool,
    prevPosition: Vec3,
    position: Vec3,
    velocity: Vec3,
    yaw: byte,
    pitch: byte,
    headYaw: byte,
    onGround: bool,
    onFire: bool,
    sprinting: bool,
    invisible: bool,
    glowing: bool,
    pose: int32,
    metadataChanged: bool,
    equipmentChanged: int,
    animation: byte)

  datatype Living = Living(entity: Entity, isHandActive: bool, offhandActive: bool)

  datatype Player = Player(
    living: Living,
    username: seq<byte>,
    skinMask: byte,
    mainHand: byte,
    flying: bool,
    health: real,
    food: real)

  /** `GetFacing`: the horizontal face the head yaw points to. The four
    * ranges cover all 256 angles without overlap, with 63 angles for
    * south and 65 for west. */
  function GetFacing(e: Entity): (r: Face)
    ensures r == South <==> 225 <= e.headYaw || e.headYaw <= 31
    ensures r == East <==> 161 <= e.headYaw <= 224
    ensures r == North <==> 97 <= e.headYaw <= 160
    ensures r == West <==> 32 <= e.headYaw <= 96
    ensures r != Top && r != Bottom
  {
    if 225 <= e.headYaw || e.headYaw <= 31 then South
    else if 161 <= e.headYaw && e.headYaw <= 224 then East
    else if 97 <= e.headYaw && e.headYaw <= 160 then North
    else West
  }

  /** The three flags as bits 0, 3 and 6 of a byte, one case at a time. */
  lemma EntityFlagBits(f: bool, s: bool, g: bool)
    ensures var r := (if f then 0x01 else 0) + (if s then 0x08 else 0) + (if g then 0x40 else 0);
      0 <= r < 0x100
      && ((r as bv8) & IsOnFire != 0) == f && ((r as bv8) & IsSprinting != 0) == s
      && ((r as bv8) & HasGlowingEffect != 0) == g
      && (r as bv8) & !(IsOnFire | IsSprinting | HasGlowingEffect) == 0
  {
  }

  /** The index-0 flag byte: on fire, sprinting and glowing, and no other
    * flag (crouching, swimming, invisibility and elytra are never set). */
  function EntityFlags(e: Entity): (r: byte)
    ensures ((r as bv8) & IsOnFire != 0) == e.onFire
    ensures ((r as bv8) & IsSprinting != 0) == e.sprinting
    ensures ((r as bv8) & HasGlowingEffect != 0) == e.glowing
    ensures (r as bv8) & !(IsOnFire | IsSprinting | HasGlowingEffect) == 0
  {
    EntityFlagBits(e.onFire, e.sprinting, e.glowing);
    (if e.onFire then 0x01 else 0) + (if e.sprinting then 0x08 else 0) + (if e.glowing then 0x40 else 0)
  }

  /** The entries an entity writes: its flags at index 0, its pose at 6. */
  function EntityEntries(e: Entity): seq<(byte, Value)>
  {
    [(0, MByte(EntityFlags(e))), (6, MPose(e.pose))]
  }

  /** `Entity.WriteMetadata`: the flag byte built bit by bit, then the
    * entries. */
  method WriteEntityMetadata(e: Entity, mw: EntityMetadataWriter)
    requires e.pose >= 0
    modifies mw.w
    ensures AllWritable(EntityEntries(e))
    ensures mw.w.data == old(mw.w.data) + EntriesBytes(EntityEntries(e))
  {
    var val := BuildEntityFlags(e);
    mw.WriteByte(0, val as int);
    mw.WritePose(6, e.pose);
    EntriesBytesPair((0, MByte(EntityFlags(e))), (6, MPose(e.pose)));
  }

  /** The start of `Entity.WriteMetadata`: the flag byte, one bit set per
    * flag that holds. */
  method BuildEntityFlags(e: Entity) returns (val: bv8)
    ensures val as int == EntityFlags(e)
  {
    val := 0;
    if e.onFire {
      val := val | IsOnFire;
    }
    if e.sprinting {
      val := val | IsSprinting;
    }
    if e.glowing {
      val := val | HasGlowingEffect;
    }
  }

  /** `Living.GetEntity`: the embedded entity, whose entries open the
    * living entity's metadata. */
  function GetEntity(l: Living): (r: Entity)
    ensures LivingEntries(l)[..2] == EntityEntries(r)
  {
    l.entity
  }

  /** The index-7 hand byte: 0x1 for the main hand, 0x2 for the off hand. */
  function HandFlags(l: Living): (r: byte)
    ensures ((r as bv8) & 0x01 != 0) == l.isHandActive
    ensures ((r as bv8) & 0x02 != 0) == l.offhandActive
    ensures (r as bv8) & 0xFC == 0
  {
    (if l.isHandActive then 0x01 else 0) + (if l.offhandActive then 0x02 else 0)
  }

  function LivingEntries(l: Living): seq<(byte, Value)>
  {
    EntityEntries(l.entity) + [(7, MByte(HandFlags(l)))]
  }

  /** `Living.WriteMetadata`: the entity's entries, then the hand byte. */
  method WriteLivingMetadata(l: Living, mw: EntityMetadataWriter)
    requires l.entity.pose >= 0
    modifies mw.w
    ensures AllWritable(LivingEntries(l))
    ensures mw.w.data == old(mw.w.data) + EntriesBytes(LivingEntries(l))
  {
    ghost var d0 := mw.w.data;
    WriteEntityMetadata(l.entity, mw);
    var val := BuildHandFlags(l);
    mw.WriteByte(7, val as int);
    ghost var hand := (7, MByte(HandFlags(l)));
    EntriesBytesOne(hand);
    EntriesBytesAppend(EntityEntries(l.entity), [hand]);
    Append3(d0, EntriesBytes(EntityEntries(l.entity)), EntriesBytes([hand]));
  }

  /** The hand byte of `Living.WriteMetadata`, one bit per active hand. */
  method BuildHandFlags(l: Living) returns (val: bv8)
    ensures val as int == HandFlags(l)
  {
    val := 0;
    if l.isHandActive {
      val := val | 0x1;
    }
    if l.offhandActive {
      val := val | 0x2;
    }
  }

  function PlayerEntries(p: Player): seq<(byte, Value)>
  {
    LivingEntries(p.living) + [(16, MByte(p.skinMask)), (17, MByte(p.mainHand))]
  }

  /** `Player.WriteMetadata`: the living entries, then the skin mask at 16
    * and the main hand at 17. */
  method WritePlayerMetadata(p: Player, mw: EntityMetadataWriter)
    requires p.living.entity.pose >= 0
    modifies mw.w
    ensures AllWritable(PlayerEntries(p))
    ensures mw.w.data == old(mw.w.data) + EntriesBytes(PlayerEntries(p))
  {
    ghost var d0 := mw.w.data;
    WriteLivingMetadata(p.living, mw);
    ghost var d1 := mw.w.data;
    mw.WriteByte(16, p.skinMask);
    mw.WriteByte(17, p.mainHand);
    ghost var skin, hand := (16, MByte(p.skinMask)), (17, MByte(p.mainHand));
    Append3(d1, EntryBytes(skin.0, skin.1), EntryBytes(hand.0, hand.1));
    EntriesBytesPair(skin, hand);
    EntriesBytesAppend(LivingEntries(p.living), [skin, hand]);
    Append3(d0, EntriesBytes(LivingEntries(p.living)), EntriesBytes([skin, hand]));
  }

  /** `NewPlayer`: a standing player on the ground at the origin, with full
    * health and food and nothing flagged. */
  function NewPlayer(username: seq<byte>, uuid: seq<byte>): (p: Player)
    ensures p.username == username && p.living.entity.uuid == uuid
    ensures p.living.entity.pose == PoseStanding && p.living.entity.onGround
    ensures PlayerEntries(p) == [(0, MByte(0)), (6, MPose(0)), (7, MByte(0)), (16, MByte(0)), (17, MByte(0))]
    ensures p.health == 20.0 && p.food == 20.0
    ensures p.living.entity.position == Origin && p.living.entity.velocity == Origin && p.living.entity.eid == 0
    ensures !p.living.entity.moved && !p.living.entity.rotated
    ensures !p.living.entity.onGroundChanged && !p.living.entity.metadataChanged
    ensures p.living.entity.yaw == 0 && p.living.entity.pitch == 0 && p.living.entity.headYaw == 0
    ensures !p.living.isHandActive && !p.living.offhandActive && p.skinMask == 0 && p.mainHand == 0
    ensures !p.living.entity.onFire && !p.living.entity.sprinting && !p.living.entity.invisible
    ensures !p.living.entity.glowing && !p.flying
    ensures p.living.entity.equipmentChanged == 0 && p.living.entity.animation == 0 && p.living.entity.prevPosition == Origin
  {
    var e := Entity(
      0, uuid, false, false, false, Origin, Origin, Origin, 0, 0, 0,
      true, false, false, false, false, PoseStanding, false, 0, 0);
    Player(Living(e, false, false), username, 0, 0, false, 20.0, 20.0)
  }

  /** The metadata a player writes, closed by `Done`, reads back as the
    * player's entries. */
  lemma PlayerMetadataRoundTrip(p: Player, data: seq<byte>, off: nat, end: nat)
    requires p.living.entity.pose >= 0
    requires AllWritable(PlayerEntries(p))
    requires Readers.At(data, off, MetadataBytes(PlayerEntries(p)))
    requires end == off + |MetadataBytes(PlayerEntries(p))|
    ensures MetadataAt(data, off) == Ok((PlayerEntries(p), end))
  {
    var es := PlayerEntries(p);
    assert es[0].0 == 0 && es[1].0 == 6 && es[2].0 == 7 && es[3].0 == 16 && es[4].0 == 17;
    assert AllEncodable(es);
    MetadataRoundTrip(data, off, es, end);
  }
}
