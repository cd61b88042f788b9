/** The player packets of the play state (minecraft/proto/play/player.go),
  * written like the world packets: a value per packet, an `Encode` that
  * appends the packet id and the fields, and the client's reading of the
  * bytes proved to give the fields back. Chat components are JSON text the
  * model carries as bytes. */
module PlayPlayer {
  import opened Bytes
  import opened Wrappers
  import opened Writers
  import opened Readers

  datatype ChatMessage = ChatMessage(data: seq<byte>, position: byte)

  function ChatMessageBytes(p: ChatMessage): seq<byte>
    requires |p.data| < 0x8000_0000
  {
    VarintBytes(0x0F) + StringBytes(p.data) + [p.position]
  }

  method EncodeChatMessage(p: ChatMessage, w: Writer)
    requires |p.data| < 0x8000_0000
    modifies w
    ensures w.data == old(w.data) + ChatMessageBytes(p)
  {
    ghost var d0 := w.data;
    w.WriteVarint(0x0F);
    w.WriteChat(p.data);
    Append3(d0, VarintBytes(0x0F), StringBytes(p.data));
    w.WriteByte(p.position);
    Append3(d0, VarintBytes(0x0F) + StringBytes(p.data), [p.position]);
  }

  /** Where each field of ChatMessage sits when its bytes are at `off`. */
  lemma ChatMessageLayout(data: seq<byte>, off: nat, p: ChatMessage, dataAt: nat, positionAt: nat, end: nat)
    requires |p.data| < 0x8000_0000
    requires At(data, off, ChatMessageBytes(p))
    requires dataAt == off + 1 && positionAt == dataAt + |StringBytes(p.data)| && end == positionAt + 1
    ensures end == off + |ChatMessageBytes(p)|
    ensures At(data, off, VarintBytes(0x0F)) && At(data, dataAt, StringBytes(p.data))
    ensures At(data, positionAt, [p.position])
  {
    AtSplitAt(data, off, VarintBytes(0x0F) + StringBytes(p.data), [p.position], positionAt);
    AtSplitAt(data, off, VarintBytes(0x0F), StringBytes(p.data), dataAt);
  }

  /** Chat Message reads back as the component, then its position byte. */
  lemma ChatMessageReadsBack(data: seq<byte>, off: nat, p: ChatMessage, dataAt: nat, positionAt: nat, end: nat)
    requires |p.data| < 0x8000_0000 && |p.data| <= 32767
    requires At(data, off, ChatMessageBytes(p))
    requires dataAt == off + 1 && positionAt == dataAt + |StringBytes(p.data)| && end == positionAt + 1
    ensures VarintAt(data, off) == Ok((0x0F as int, dataAt))
    ensures ChatAtFixed(data, dataAt) == Ok((p.data, positionAt))
    ensures ByteAt(data, positionAt) == Ok((p.position, end))
  {
    ChatMessageLayout(data, off, p, dataAt, positionAt, end);
    VarintReadsBack(data, off, 0x0F, dataAt);
    ChatReadsBack(data, dataAt, p.data, positionAt);
    ByteRoundTrip(data, positionAt, p.position);
  }

  datatype Disconnect = Disconnect(reason: seq<byte>)

  function DisconnectBytes(p: Disconnect): seq<byte>
    requires |p.reason| < 0x8000_0000
  {
    VarintBytes(0x1B) + StringBytes(p.reason)
  }

  method EncodeDisconnect(p: Disconnect, w: Writer)
    requires |p.reason| < 0x8000_0000
    modifies w
    ensures w.data == old(w.data) + DisconnectBytes(p)
  {
    ghost var d0 := w.data;
    w.WriteVarint(0x1B);
    w.WriteChat(p.reason);
    Append3(d0, VarintBytes(0x1B), StringBytes(p.reason));
  }

  /** Where each field of Disconnect sits when its bytes are at `off`. */
  lemma DisconnectLayout(data: seq<byte>, off: nat, p: Disconnect, reasonAt: nat, end: nat)
    requires |p.reason| < 0x8000_0000
    requires At(data, off, DisconnectBytes(p))
    requires reasonAt == off + 1 && end == reasonAt + |StringBytes(p.reason)|
    ensures end == off + |DisconnectBytes(p)|
    ensures At(data, off, VarintBytes(0x1B)) && At(data, reasonAt, StringBytes(p.reason))
  {
    AtSplitAt(data, off, VarintBytes(0x1B), StringBytes(p.reason), reasonAt);
  }

  /** Disconnect reads back as the reason. */
  lemma DisconnectReadsBack(data: seq<byte>, off: nat, p: Disconnect, reasonAt: nat, end: nat)
    requires |p.reason| < 0x8000_0000 && |p.reason| <= 32767
    requires At(data, off, DisconnectBytes(p))
    requires reasonAt == off + 1 && end == reasonAt + |StringBytes(p.reason)|
    ensures VarintAt(data, off) == Ok((0x1B as int, reasonAt))
    ensures ChatAtFixed(data, reasonAt) == Ok((p.reason, end))
  {
    DisconnectLayout(data, off, p, reasonAt, end);
    VarintReadsBack(data, off, 0x1B, reasonAt);
    ChatReadsBack(data, reasonAt, p.reason, end);
  }

  datatype KeepAlive = KeepAlive(keepAliveId: int64)

  function KeepAliveBytes(p: KeepAlive): seq<byte>
  {
    VarintBytes(0x21) + BigEndian(p.keepAliveId, 8)
  }

  method EncodeKeepAlive(p: KeepAlive, w: Writer)
    modifies w
    ensures w.data == old(w.data) + KeepAliveBytes(p)
  {
    ghost var d0 := w.data;
    w.WriteVarint(0x21);
    w.WriteLong(p.keepAliveId);
    Append3(d0, VarintBytes(0x21), BigEndian(p.keepAliveId, 8));
  }

  /** Where each field of KeepAlive sits when its bytes are at `off`. */
  lemma KeepAliveLayout(data: seq<byte>, off: nat, p: KeepAlive, keepAliveIdAt: nat, end: nat)
    requires At(data, off, KeepAliveBytes(p))
    requires keepAliveIdAt == off + 1 && end == keepAliveIdAt + 8
    ensures end == off + |KeepAliveBytes(p)|
    ensures At(data, off, VarintBytes(0x21)) && At(data, keepAliveIdAt, BigEndian(p.keepAliveId, 8))
  {
    AtSplitAt(data, off, VarintBytes(0x21), BigEndian(p.keepAliveId, 8), keepAliveIdAt);
  }

  /** Keep Alive reads back as the id, negative ids included. */
  lemma KeepAliveReadsBack(data: seq<byte>, off: nat, p: KeepAlive, keepAliveIdAt: nat, end: nat)
    requires At(data, off, KeepAliveBytes(p))
    requires keepAliveIdAt == off + 1 && end == keepAliveIdAt + 8
    ensures VarintAt(data, off) == Ok((0x21 as int, keepAliveIdAt))
    ensures SignedAt(data, keepAliveIdAt, 8) == Ok((p.keepAliveId as int, end))
  {
    KeepAliveLayout(data, off, p, keepAliveIdAt, end);
    VarintReadsBack(data, off, 0x21, keepAliveIdAt);
    LongRoundTrip(data, keepAliveIdAt, p.keepAliveId, end);
  }

  datatype JoinGame = JoinGame(entityId: int32, gamemode: byte, dimension: int32, hashedSeed: int64, levelType: seq<byte>, viewDistance: int32, reducedDebugInfo: bool, enableRespawnScreen: bool)

  function JoinGameBytes(p: JoinGame): seq<byte>
    requires |p.levelType| < 0x8000_0000 && p.viewDistance >= 0
  {
    VarintBytes(0x26) + BigEndian(p.entityId, 4) + [p.gamemode] + BigEndian(p.dimension, 4) + BigEndian(p.hashedSeed, 8) + [0] + StringBytes(p.levelType) + VarintBytes(p.viewDistance) + BooleanBytes(p.reducedDebugInfo) + BooleanBytes(p.enableRespawnScreen)
  }

  /** The maximum player count is always written as 0; the client ignores it. */
  method EncodeJoinGame(p: JoinGame, w: Writer)
    requires |p.levelType| < 0x8000_0000 && p.viewDistance >= 0
    modifies w
    ensures w.data == old(w.data) + JoinGameBytes(p)
  {
    ghost var d0 := w.data;
    w.WriteVarint(0x26);
    w.WriteInt(p.entityId);
    Append3(d0, VarintBytes(0x26), BigEndian(p.entityId, 4));
    w.WriteByte(p.gamemode);
    Append3(d0, VarintBytes(0x26) + BigEndian(p.entityId, 4), [p.gamemode]);
    w.WriteInt(p.dimension);
    Append3(d0, VarintBytes(0x26) + BigEndian(p.entityId, 4) + [p.gamemode], BigEndian(p.dimension, 4));
    w.WriteLong(p.hashedSeed);
    Append3(d0, VarintBytes(0x26) + BigEndian(p.entityId, 4) + [p.gamemode] + BigEndian(p.dimension, 4), BigEndian(p.hashedSeed, 8));
    w.WriteByte(0);
    Append3(d0, VarintBytes(0x26) + BigEndian(p.entityId, 4) + [p.gamemode] + BigEndian(p.dimension, 4) + BigEndian(p.hashedSeed, 8), [0]);
    w.WriteString(p.levelType);
    Append3(d0, VarintBytes(0x26) + BigEndian(p.entityId, 4) + [p.gamemode] + BigEndian(p.dimension, 4) + BigEndian(p.hashedSeed, 8) + [0], StringBytes(p.levelType));
    w.WriteVarint(p.viewDistance);
    Append3(d0, VarintBytes(0x26) + BigEndian(p.entityId, 4) + [p.gamemode] + BigEndian(p.dimension, 4) + BigEndian(p.hashedSeed, 8) + [0] + StringBytes(p.levelType), VarintBytes(p.viewDistance));
    w.WriteBoolean(p.reducedDebugInfo);
    Append3(d0, VarintBytes(0x26) + BigEndian(p.entityId, 4) + [p.gamemode] + BigEndian(p.dimension, 4) + BigEndian(p.hashedSeed, 8) + [0] + StringBytes(p.levelType) + VarintBytes(p.viewDistance), BooleanBytes(p.reducedDebugInfo));
    w.WriteBoolean(p.enableRespawnScreen);
    Append3(d0, VarintBytes(0x26) + BigEndian(p.entityId, 4) + [p.gamemode] + BigEndian(p.dimension, 4) + BigEndian(p.hashedSeed, 8) + [0] + StringBytes(p.levelType) + VarintBytes(p.viewDistance) + BooleanBytes(p.reducedDebugInfo), BooleanBytes(p.enableRespawnScreen));
  }

  lemma JoinGameLayoutPart1(data: seq<byte>, off: nat, p: JoinGame, entityIdAt: nat, gamemodeAt: nat, dimensionAt: nat, hashedSeedAt: nat, maxPlayersAt: nat, levelTypeAt: nat, viewDistanceAt: nat, reducedDebugInfoAt: nat, enableRespawnScreenAt: nat, end: nat)
    requires |p.levelType| < 0x8000_0000 && p.viewDistance >= 0
    requires At(data, off, VarintBytes(0x26) + BigEndian(p.entityId, 4) + [p.gamemode])
    requires entityIdAt == off + 1 && gamemodeAt == entityIdAt + 4 && dimensionAt == gamemodeAt + 1 && hashedSeedAt == dimensionAt + 4 && maxPlayersAt == hashedSeedAt + 8 && levelTypeAt == maxPlayersAt + 1 && viewDistanceAt == levelTypeAt + |StringBytes(p.levelType)| && reducedDebugInfoAt == viewDistanceAt + |VarintBytes(p.viewDistance)| && enableRespawnScreenAt == reducedDebugInfoAt + 1
    ensures At(data, off, VarintBytes(0x26))
    ensures At(data, entityIdAt, BigEndian(p.entityId, 4))
    ensures At(data, gamemodeAt, [p.gamemode])
  {
    AtSplitAt(data, off, VarintBytes(0x26) + BigEndian(p.entityId, 4), [p.gamemode], gamemodeAt);
    AtSplitAt(data, off, VarintBytes(0x26), BigEndian(p.entityId, 4), entityIdAt);
  }

  lemma JoinGameLayoutPart2(data: seq<byte>, off: nat, p: JoinGame, entityIdAt: nat, gamemodeAt: nat, dimensionAt: nat, hashedSeedAt: nat, maxPlayersAt: nat, levelTypeAt: nat, viewDistanceAt: nat, reducedDebugInfoAt: nat, enableRespawnScreenAt: nat, end: nat)
    requires |p.levelType| < 0x8000_0000 && p.viewDistance >= 0
    requires At(data, off, VarintBytes(0x26) + BigEndian(p.entityId, 4) + [p.gamemode] + BigEndian(p.dimension, 4) + BigEndian(p.hashedSeed, 8) + [0])
    requires entityIdAt == off + 1 && gamemodeAt == entityIdAt + 4 && dimensionAt == gamemodeAt + 1 && hashedSeedAt == dimensionAt + 4 && maxPlayersAt == hashedSeedAt + 8 && levelTypeAt == maxPlayersAt + 1 && viewDistanceAt == levelTypeAt + |StringBytes(p.levelType)| && reducedDebugInfoAt == viewDistanceAt + |VarintBytes(p.viewDistance)| && enableRespawnScreenAt == reducedDebugInfoAt + 1
    ensures At(data, off, VarintBytes(0x26) + BigEndian(p.entityId, 4) + [p.gamemode])
    ensures At(data, dimensionAt, BigEndian(p.dimension, 4))
    ensures At(data, hashedSeedAt, BigEndian(p.hashedSeed, 8))
    ensures At(data, maxPlayersAt, [0])
  {
    AtSplitAt(data, off, VarintBytes(0x26) + BigEndian(p.entityId, 4) + [p.gamemode] + BigEndian(p.dimension, 4) + BigEndian(p.hashedSeed, 8), [0], maxPlayersAt);
    AtSplitAt(data, off, VarintBytes(0x26) + BigEndian(p.entityId, 4) + [p.gamemode] + BigEndian(p.dimension, 4), BigEndian(p.hashedSeed, 8), hashedSeedAt);
    AtSplitAt(data, off, VarintBytes(0x26) + BigEndian(p.entityId, 4) + [p.gamemode], BigEndian(p.dimension, 4), dimensionAt);
  }

  lemma JoinGameLayoutPart3(data: seq<byte>, off: nat, p: JoinGame, entityIdAt: nat, gamemodeAt: nat, dimensionAt: nat, hashedSeedAt: nat, maxPlayersAt: nat, levelTypeAt: nat, viewDistanceAt: nat, reducedDebugInfoAt: nat, enableRespawnScreenAt: nat, end: nat)
    requires |p.levelType| < 0x8000_0000 && p.viewDistance >= 0
    requires At(data, off, VarintBytes(0x26) + BigEndian(p.entityId, 4) + [p.gamemode] + BigEndian(p.dimension, 4) + BigEndian(p.hashedSeed, 8) + [0] + StringBytes(p.levelType) + VarintBytes(p.viewDistance) + BooleanBytes(p.reducedDebugInfo))
    requires entityIdAt == off + 1 && gamemodeAt == entityIdAt + 4 && dimensionAt == gamemodeAt + 1 && hashedSeedAt == dimensionAt + 4 && maxPlayersAt == hashedSeedAt + 8 && levelTypeAt == maxPlayersAt + 1 && viewDistanceAt == levelTypeAt + |StringBytes(p.levelType)| && reducedDebugInfoAt == viewDistanceAt + |VarintBytes(p.viewDistance)| && enableRespawnScreenAt == reducedDebugInfoAt + 1
    ensures At(data, off, VarintBytes(0x26) + BigEndian(p.entityId, 4) + [p.gamemode] + BigEndian(p.dimension, 4) + BigEndian(p.hashedSeed, 8) + [0])
    ensures At(data, levelTypeAt, StringBytes(p.levelType))
    ensures At(data, viewDistanceAt, VarintBytes(p.viewDistance))
    ensures At(data, reducedDebugInfoAt, BooleanBytes(p.reducedDebugInfo))
  {
    AtSplitAt(data, off, VarintBytes(0x26) + BigEndian(p.entityId, 4) + [p.gamemode] + BigEndian(p.dimension, 4) + BigEndian(p.hashedSeed, 8) + [0] + StringBytes(p.levelType) + VarintBytes(p.viewDistance), BooleanBytes(p.reducedDebugInfo), reducedDebugInfoAt);
    AtSplitAt(data, off, VarintBytes(0x26) + BigEndian(p.entityId, 4) + [p.gamemode] + BigEndian(p.dimension, 4) + BigEndian(p.hashedSeed, 8) + [0] + StringBytes(p.levelType), VarintBytes(p.viewDistance), viewDistanceAt);
    AtSplitAt(data, off, VarintBytes(0x26) + BigEndian(p.entityId, 4) + [p.gamemode] + BigEndian(p.dimension, 4) + BigEndian(p.hashedSeed, 8) + [0], StringBytes(p.levelType), levelTypeAt);
  }

  lemma JoinGameLayoutPart4(data: seq<byte>, off: nat, p: JoinGame, entityIdAt: nat, gamemodeAt: nat, dimensionAt: nat, hashedSeedAt: nat, maxPlayersAt: nat, levelTypeAt: nat, viewDistanceAt: nat, reducedDebugInfoAt: nat, enableRespawnScreenAt: nat, end: nat)
    requires |p.levelType| < 0x8000_0000 && p.viewDistance >= 0
    requires At(data, off, VarintBytes(0x26) + BigEndian(p.entityId, 4) + [p.gamemode] + BigEndian(p.dimension, 4) + BigEndian(p.hashedSeed, 8) + [0] + StringBytes(p.levelType) + VarintBytes(p.viewDistance) + BooleanBytes(p.reducedDebugInfo) + BooleanBytes(p.enableRespawnScreen))
    requires entityIdAt == off + 1 && gamemodeAt == entityIdAt + 4 && dimensionAt == gamemodeAt + 1 && hashedSeedAt == dimensionAt + 4 && maxPlayersAt == hashedSeedAt + 8 && levelTypeAt == maxPlayersAt + 1 && viewDistanceAt == levelTypeAt + |StringBytes(p.levelType)| && reducedDebugInfoAt == viewDistanceAt + |VarintBytes(p.viewDistance)| && enableRespawnScreenAt == reducedDebugInfoAt + 1
    ensures At(data, off, VarintBytes(0x26) + BigEndian(p.entityId, 4) + [p.gamemode] + BigEndian(p.dimension, 4) + BigEndian(p.hashedSeed, 8) + [0] + StringBytes(p.levelType) + VarintBytes(p.viewDistance) + BooleanBytes(p.reducedDebugInfo))
    ensures At(data, enableRespawnScreenAt, BooleanBytes(p.enableRespawnScreen))
  {
    AtSplitAt(data, off, VarintBytes(0x26) + BigEndian(p.entityId, 4) + [p.gamemode] + BigEndian(p.dimension, 4) + BigEndian(p.hashedSeed, 8) + [0] + StringBytes(p.levelType) + VarintBytes(p.viewDistance) + BooleanBytes(p.reducedDebugInfo), BooleanBytes(p.enableRespawnScreen), enableRespawnScreenAt);
  }

  /** Where each field of JoinGame sits when its bytes are at `off`. */
  lemma JoinGameLayout(data: seq<byte>, off: nat, p: JoinGame, entityIdAt: nat, gamemodeAt: nat, dimensionAt: nat, hashedSeedAt: nat, maxPlayersAt: nat, levelTypeAt: nat, viewDistanceAt: nat, reducedDebugInfoAt: nat, enableRespawnScreenAt: nat, end: nat)
    requires |p.levelType| < 0x8000_0000 && p.viewDistance >= 0
    requires At(data, off, JoinGameBytes(p))
    requires entityIdAt == off + 1 && gamemodeAt == entityIdAt + 4 && dimensionAt == gamemodeAt + 1 && hashedSeedAt == dimensionAt + 4 && maxPlayersAt == hashedSeedAt + 8 && levelTypeAt == maxPlayersAt + 1 && viewDistanceAt == levelTypeAt + |StringBytes(p.levelType)| && reducedDebugInfoAt == viewDistanceAt + |VarintBytes(p.viewDistance)| && enableRespawnScreenAt == reducedDebugInfoAt + 1 && end == enableRespawnScreenAt + 1
    ensures end == off + |JoinGameBytes(p)|
    ensures At(data, off, VarintBytes(0x26)) && At(data, entityIdAt, BigEndian(p.entityId, 4))
    ensures At(data, gamemodeAt, [p.gamemode]) && At(data, dimensionAt, BigEndian(p.dimension, 4))
    ensures At(data, hashedSeedAt, BigEndian(p.hashedSeed, 8)) && At(data, maxPlayersAt, [0])
    ensures At(data, levelTypeAt, StringBytes(p.levelType)) && At(data, viewDistanceAt, VarintBytes(p.viewDistance))
    ensures At(data, reducedDebugInfoAt, BooleanBytes(p.reducedDebugInfo)) && At(data, enableRespawnScreenAt, BooleanBytes(p.enableRespawnScreen))
  {
    JoinGameLayoutPart4(data, off, p, entityIdAt, gamemodeAt, dimensionAt, hashedSeedAt, maxPlayersAt, levelTypeAt, viewDistanceAt, reducedDebugInfoAt, enableRespawnScreenAt, end);
    JoinGameLayoutPart3(data, off, p, entityIdAt, gamemodeAt, dimensionAt, hashedSeedAt, maxPlayersAt, levelTypeAt, viewDistanceAt, reducedDebugInfoAt, enableRespawnScreenAt, end);
    JoinGameLayoutPart2(data, off, p, entityIdAt, gamemodeAt, dimensionAt, hashedSeedAt, maxPlayersAt, levelTypeAt, viewDistanceAt, reducedDebugInfoAt, enableRespawnScreenAt, end);
    JoinGameLayoutPart1(data, off, p, entityIdAt, gamemodeAt, dimensionAt, hashedSeedAt, maxPlayersAt, levelTypeAt, viewDistanceAt, reducedDebugInfoAt, enableRespawnScreenAt, end);
  }

  lemma JoinGameReadsBackPart1(data: seq<byte>, off: nat, p: JoinGame, entityIdAt: nat, gamemodeAt: nat, dimensionAt: nat, hashedSeedAt: nat, maxPlayersAt: nat, levelTypeAt: nat, viewDistanceAt: nat, reducedDebugInfoAt: nat, enableRespawnScreenAt: nat, end: nat)
    requires At(data, off, VarintBytes(0x26))
    requires At(data, entityIdAt, BigEndian(p.entityId, 4))
    requires At(data, gamemodeAt, [p.gamemode])
    requires entityIdAt == off + 1 && gamemodeAt == entityIdAt + 4 && dimensionAt == gamemodeAt + 1
    ensures VarintAt(data, off) == Ok((0x26 as int, entityIdAt))
    ensures SignedAt(data, entityIdAt, 4) == Ok((p.entityId as int, gamemodeAt))
    ensures ByteAt(data, gamemodeAt) == Ok((p.gamemode, dimensionAt))
  {
    VarintReadsBack(data, off, 0x26, entityIdAt);
    IntRoundTrip(data, entityIdAt, p.entityId, gamemodeAt);
    ByteRoundTrip(data, gamemodeAt, p.gamemode);
  }

  lemma JoinGameReadsBackPart2(data: seq<byte>, off: nat, p: JoinGame, entityIdAt: nat, gamemodeAt: nat, dimensionAt: nat, hashedSeedAt: nat, maxPlayersAt: nat, levelTypeAt: nat, viewDistanceAt: nat, reducedDebugInfoAt: nat, enableRespawnScreenAt: nat, end: nat)
    requires At(data, dimensionAt, BigEndian(p.dimension, 4))
    requires At(data, hashedSeedAt, BigEndian(p.hashedSeed, 8))
    requires At(data, maxPlayersAt, [0])
    requires dimensionAt == gamemodeAt + 1 && hashedSeedAt == dimensionAt + 4 && maxPlayersAt == hashedSeedAt + 8 && levelTypeAt == maxPlayersAt + 1
    ensures SignedAt(data, dimensionAt, 4) == Ok((p.dimension as int, hashedSeedAt))
    ensures SignedAt(data, hashedSeedAt, 8) == Ok((p.hashedSeed as int, maxPlayersAt))
    ensures ByteAt(data, maxPlayersAt) == Ok((0 as byte, levelTypeAt))
  {
    IntRoundTrip(data, dimensionAt, p.dimension, hashedSeedAt);
    LongRoundTrip(data, hashedSeedAt, p.hashedSeed, maxPlayersAt);
    ByteRoundTrip(data, maxPlayersAt, 0);
  }

  lemma JoinGameReadsBackPart3(data: seq<byte>, off: nat, p: JoinGame, entityIdAt: nat, gamemodeAt: nat, dimensionAt: nat, hashedSeedAt: nat, maxPlayersAt: nat, levelTypeAt: nat, viewDistanceAt: nat, reducedDebugInfoAt: nat, enableRespawnScreenAt: nat, end: nat)
    requires |p.levelType| < 0x8000_0000 && |p.levelType| <= 32767 && p.viewDistance >= 0
    requires At(data, levelTypeAt, StringBytes(p.levelType))
    requires At(data, viewDistanceAt, VarintBytes(p.viewDistance))
    requires At(data, reducedDebugInfoAt, BooleanBytes(p.reducedDebugInfo))
    requires levelTypeAt == maxPlayersAt + 1 && viewDistanceAt == levelTypeAt + |StringBytes(p.levelType)| && reducedDebugInfoAt == viewDistanceAt + |VarintBytes(p.viewDistance)| && enableRespawnScreenAt == reducedDebugInfoAt + 1
    ensures StringAt(data, levelTypeAt, 32767) == Ok((p.levelType, viewDistanceAt))
    ensures VarintAt(data, viewDistanceAt) == Ok((p.viewDistance as int, reducedDebugInfoAt))
    ensures BooleanAt(data, reducedDebugInfoAt) == Ok((p.reducedDebugInfo, enableRespawnScreenAt))
  {
    StringReadsBack(data, levelTypeAt, p.levelType, 32767, viewDistanceAt);
    VarintReadsBack(data, viewDistanceAt, p.viewDistance, reducedDebugInfoAt);
    BooleanRoundTrip(data, reducedDebugInfoAt, p.reducedDebugInfo);
  }

  lemma JoinGameReadsBackPart4(data: seq<byte>, off: nat, p: JoinGame, entityIdAt: nat, gamemodeAt: nat, dimensionAt: nat, hashedSeedAt: nat, maxPlayersAt: nat, levelTypeAt: nat, viewDistanceAt: nat, reducedDebugInfoAt: nat, enableRespawnScreenAt: nat, end: nat)
    requires At(data, enableRespawnScreenAt, BooleanBytes(p.enableRespawnScreen))
    requires enableRespawnScreenAt == reducedDebugInfoAt + 1 && end == enableRespawnScreenAt + 1
    ensures BooleanAt(data, enableRespawnScreenAt) == Ok((p.enableRespawnScreen, end))
  {
    BooleanRoundTrip(data, enableRespawnScreenAt, p.enableRespawnScreen);
  }

  /** Join Game reads back field by field; the maximum player count reads as 0. */
  lemma JoinGameReadsBack(data: seq<byte>, off: nat, p: JoinGame, entityIdAt: nat, gamemodeAt: nat, dimensionAt: nat, hashedSeedAt: nat, maxPlayersAt: nat, levelTypeAt: nat, viewDistanceAt: nat, reducedDebugInfoAt: nat, enableRespawnScreenAt: nat, end: nat)
    requires |p.levelType| < 0x8000_0000 && p.viewDistance >= 0 && |p.levelType| <= 32767
    requires At(data, off, JoinGameBytes(p))
    requires entityIdAt == off + 1 && gamemodeAt == entityIdAt + 4 && dimensionAt == gamemodeAt + 1 && hashedSeedAt == dimensionAt + 4 && maxPlayersAt == hashedSeedAt + 8 && levelTypeAt == maxPlayersAt + 1 && viewDistanceAt == levelTypeAt + |StringBytes(p.levelType)| && reducedDebugInfoAt == viewDistanceAt + |VarintBytes(p.viewDistance)| && enableRespawnScreenAt == reducedDebugInfoAt + 1 && end == enableRespawnScreenAt + 1
    ensures VarintAt(data, off) == Ok((0x26 as int, entityIdAt))
    ensures SignedAt(data, entityIdAt, 4) == Ok((p.entityId as int, gamemodeAt))
    ensures ByteAt(data, gamemodeAt) == Ok((p.gamemode, dimensionAt))
    ensures SignedAt(data, dimensionAt, 4) == Ok((p.dimension as int, hashedSeedAt))
    ensures SignedAt(data, hashedSeedAt, 8) == Ok((p.hashedSeed as int, maxPlayersAt))
    ensures ByteAt(data, maxPlayersAt) == Ok((0 as byte, levelTypeAt))
    ensures StringAt(data, levelTypeAt, 32767) == Ok((p.levelType, viewDistanceAt))
    ensures VarintAt(data, viewDistanceAt) == Ok((p.viewDistance as int, reducedDebugInfoAt))
    ensures BooleanAt(data, reducedDebugInfoAt) == Ok((p.reducedDebugInfo, enableRespawnScreenAt))
    ensures BooleanAt(data, enableRespawnScreenAt) == Ok((p.enableRespawnScreen, end))
  {
    JoinGameLayout(data, off, p, entityIdAt, gamemodeAt, dimensionAt, hashedSeedAt, maxPlayersAt, levelTypeAt, viewDistanceAt, reducedDebugInfoAt, enableRespawnScreenAt, end);
    JoinGameReadsBackPart1(data, off, p, entityIdAt, gamemodeAt, dimensionAt, hashedSeedAt, maxPlayersAt, levelTypeAt, viewDistanceAt, reducedDebugInfoAt, enableRespawnScreenAt, end);
    JoinGameReadsBackPart2(data, off, p, entityIdAt, gamemodeAt, dimensionAt, hashedSeedAt, maxPlayersAt, levelTypeAt, viewDistanceAt, reducedDebugInfoAt, enableRespawnScreenAt, end);
    JoinGameReadsBackPart3(data, off, p, entityIdAt, gamemodeAt, dimensionAt, hashedSeedAt, maxPlayersAt, levelTypeAt, viewDistanceAt, reducedDebugInfoAt, enableRespawnScreenAt, end);
    JoinGameReadsBackPart4(data, off, p, entityIdAt, gamemodeAt, dimensionAt, hashedSeedAt, maxPlayersAt, levelTypeAt, viewDistanceAt, reducedDebugInfoAt, enableRespawnScreenAt, end);
  }

  datatype PlayerPositionAndLook = PlayerPositionAndLook(x: uint64, y: uint64, z: uint64, yaw: uint32, pitch: uint32, flags: byte, teleportId: int32)

  /** Coordinates and angles are IEEE 754 values the model carries as their bit patterns. */
  function PlayerPositionAndLookBytes(p: PlayerPositionAndLook): seq<byte>
    requires p.teleportId >= 0
  {
    VarintBytes(0x36) + BigEndian(p.x, 8) + BigEndian(p.y, 8) + BigEndian(p.z, 8) + BigEndian(p.yaw, 4) + BigEndian(p.pitch, 4) + [p.flags] + VarintBytes(p.teleportId)
  }

  method EncodePlayerPositionAndLook(p: PlayerPositionAndLook, w: Writer)
    requires p.teleportId >= 0
    modifies w
    ensures w.data == old(w.data) + PlayerPositionAndLookBytes(p)
  {
    ghost var d0 := w.data;
    w.WriteVarint(0x36);
    w.WriteDouble(p.x);
    Append3(d0, VarintBytes(0x36), BigEndian(p.x, 8));
    w.WriteDouble(p.y);
    Append3(d0, VarintBytes(0x36) + BigEndian(p.x, 8), BigEndian(p.y, 8));
    w.WriteDouble(p.z);
    Append3(d0, VarintBytes(0x36) + BigEndian(p.x, 8) + BigEndian(p.y, 8), BigEndian(p.z, 8));
    w.WriteFloat(p.yaw);
    Append3(d0, VarintBytes(0x36) + BigEndian(p.x, 8) + BigEndian(p.y, 8) + BigEndian(p.z, 8), BigEndian(p.yaw, 4));
    w.WriteFloat(p.pitch);
    Append3(d0, VarintBytes(0x36) + BigEndian(p.x, 8) + BigEndian(p.y, 8) + BigEndian(p.z, 8) + BigEndian(p.yaw, 4), BigEndian(p.pitch, 4));
    w.WriteByte(p.flags);
    Append3(d0, VarintBytes(0x36) + BigEndian(p.x, 8) + BigEndian(p.y, 8) + BigEndian(p.z, 8) + BigEndian(p.yaw, 4) + BigEndian(p.pitch, 4), [p.flags]);
    w.WriteVarint(p.teleportId);
    Append3(d0, VarintBytes(0x36) + BigEndian(p.x, 8) + BigEndian(p.y, 8) + BigEndian(p.z, 8) + BigEndian(p.yaw, 4) + BigEndian(p.pitch, 4) + [p.flags], VarintBytes(p.teleportId));
  }

  lemma PlayerPositionAndLookLayoutPart1(data: seq<byte>, off: nat, p: PlayerPositionAndLook, xAt: nat, yAt: nat, zAt: nat, yawAt: nat, pitchAt: nat, flagsAt: nat, teleportIdAt: nat, end: nat)
    requires p.teleportId >= 0
    requires At(data, off, VarintBytes(0x36) + BigEndian(p.x, 8) + BigEndian(p.y, 8))
    requires xAt == off + 1 && yAt == xAt + 8 && zAt == yAt + 8 && yawAt == zAt + 8 && pitchAt == yawAt + 4 && flagsAt == pitchAt + 4 && teleportIdAt == flagsAt + 1
    ensures At(data, off, VarintBytes(0x36))
    ensures At(data, xAt, BigEndian(p.x, 8))
    ensures At(data, yAt, BigEndian(p.y, 8))
  {
    AtSplitAt(data, off, VarintBytes(0x36) + BigEndian(p.x, 8), BigEndian(p.y, 8), yAt);
    AtSplitAt(data, off, VarintBytes(0x36), BigEndian(p.x, 8), xAt);
  }

  lemma PlayerPositionAndLookLayoutPart2(data: seq<byte>, off: nat, p: PlayerPositionAndLook, xAt: nat, yAt: nat, zAt: nat, yawAt: nat, pitchAt: nat, flagsAt: nat, teleportIdAt: nat, end: nat)
    requires p.teleportId >= 0
    requires At(data, off, VarintBytes(0x36) + BigEndian(p.x, 8) + BigEndian(p.y, 8) + BigEndian(p.z, 8) + BigEndian(p.yaw, 4) + BigEndian(p.pitch, 4))
    requires xAt == off + 1 && yAt == xAt + 8 && zAt == yAt + 8 && yawAt == zAt + 8 && pitchAt == yawAt + 4 && flagsAt == pitchAt + 4 && teleportIdAt == flagsAt + 1
    ensures At(data, off, VarintBytes(0x36) + BigEndian(p.x, 8) + BigEndian(p.y, 8))
    ensures At(data, zAt, BigEndian(p.z, 8))
    ensures At(data, yawAt, BigEndian(p.yaw, 4))
    ensures At(data, pitchAt, BigEndian(p.pitch, 4))
  {
    AtSplitAt(data, off, VarintBytes(0x36) + BigEndian(p.x, 8) + BigEndian(p.y, 8) + BigEndian(p.z, 8) + BigEndian(p.yaw, 4), BigEndian(p.pitch, 4), pitchAt);
    AtSplitAt(data, off, VarintBytes(0x36) + BigEndian(p.x, 8) + BigEndian(p.y, 8) + BigEndian(p.z, 8), BigEndian(p.yaw, 4), yawAt);
    AtSplitAt(data, off, VarintBytes(0x36) + BigEndian(p.x, 8) + BigEndian(p.y, 8), BigEndian(p.z, 8), zAt);
  }

  lemma PlayerPositionAndLookLayoutPart3(data: seq<byte>, off: nat, p: PlayerPositionAndLook, xAt: nat, yAt: nat, zAt: nat, yawAt: nat, pitchAt: nat, flagsAt: nat, teleportIdAt: nat, end: nat)
    requires p.teleportId >= 0
    requires At(data, off, VarintBytes(0x36) + BigEndian(p.x, 8) + BigEndian(p.y, 8) + BigEndian(p.z, 8) + BigEndian(p.yaw, 4) + BigEndian(p.pitch, 4) + [p.flags] + VarintBytes(p.teleportId))
    requires xAt == off + 1 && yAt == xAt + 8 && zAt == yAt + 8 && yawAt == zAt + 8 && pitchAt == yawAt + 4 && flagsAt == pitchAt + 4 && teleportIdAt == flagsAt + 1
    ensures At(data, off, VarintBytes(0x36) + BigEndian(p.x, 8) + BigEndian(p.y, 8) + BigEndian(p.z, 8) + BigEndian(p.yaw, 4) + BigEndian(p.pitch, 4))
    ensures At(data, flagsAt, [p.flags])
    ensures At(data, teleportIdAt, VarintBytes(p.teleportId))
  {
    AtSplitAt(data, off, VarintBytes(0x36) + BigEndian(p.x, 8) + BigEndian(p.y, 8) + BigEndian(p.z, 8) + BigEndian(p.yaw, 4) + BigEndian(p.pitch, 4) + [p.flags], VarintBytes(p.teleportId), teleportIdAt);
    AtSplitAt(data, off, VarintBytes(0x36) + BigEndian(p.x, 8) + BigEndian(p.y, 8) + BigEndian(p.z, 8) + BigEndian(p.yaw, 4) + BigEndian(p.pitch, 4), [p.flags], flagsAt);
  }

  /** Where each field of PlayerPositionAndLook sits when its bytes are at `off`. */
  lemma PlayerPositionAndLookLayout(data: seq<byte>, off: nat, p: PlayerPositionAndLook, xAt: nat, yAt: nat, zAt: nat, yawAt: nat, pitchAt: nat, flagsAt: nat, teleportIdAt: nat, end: nat)
    requires p.teleportId >= 0
    requires At(data, off, PlayerPositionAndLookBytes(p))
    requires xAt == off + 1 && yAt == xAt + 8 && zAt == yAt + 8 && yawAt == zAt + 8 && pitchAt == yawAt + 4 && flagsAt == pitchAt + 4 && teleportIdAt == flagsAt + 1 && end == teleportIdAt + |VarintBytes(p.teleportId)|
    ensures end == off + |PlayerPositionAndLookBytes(p)|
    ensures At(data, off, VarintBytes(0x36)) && At(data, xAt, BigEndian(p.x, 8))
    ensures At(data, yAt, BigEndian(p.y, 8)) && At(data, zAt, BigEndian(p.z, 8))
    ensures At(data, yawAt, BigEndian(p.yaw, 4)) && At(data, pitchAt, BigEndian(p.pitch, 4))
    ensures At(data, flagsAt, [p.flags]) && At(data, teleportIdAt, VarintBytes(p.teleportId))
  {
    PlayerPositionAndLookLayoutPart3(data, off, p, xAt, yAt, zAt, yawAt, pitchAt, flagsAt, teleportIdAt, end);
    PlayerPositionAndLookLayoutPart2(data, off, p, xAt, yAt, zAt, yawAt, pitchAt, flagsAt, teleportIdAt, end);
    PlayerPositionAndLookLayoutPart1(data, off, p, xAt, yAt, zAt, yawAt, pitchAt, flagsAt, teleportIdAt, end);
  }

  lemma PlayerPositionAndLookReadsBackPart1(data: seq<byte>, off: nat, p: PlayerPositionAndLook, xAt: nat, yAt: nat, zAt: nat, yawAt: nat, pitchAt: nat, flagsAt: nat, teleportIdAt: nat, end: nat)
    requires At(data, off, VarintBytes(0x36))
    requires At(data, xAt, BigEndian(p.x, 8))
    requires At(data, yAt, BigEndian(p.y, 8))
    requires xAt == off + 1 && yAt == xAt + 8 && zAt == yAt + 8
    ensures VarintAt(data, off) == Ok((0x36 as int, xAt))
    ensures UnsignedAt(data, xAt, 8) == Ok((p.x as nat, yAt))
    ensures UnsignedAt(data, yAt, 8) == Ok((p.y as nat, zAt))
  {
    VarintReadsBack(data, off, 0x36, xAt);
    DoubleRoundTrip(data, xAt, p.x, yAt);
    DoubleRoundTrip(data, yAt, p.y, zAt);
  }

  lemma PlayerPositionAndLookReadsBackPart2(data: seq<byte>, off: nat, p: PlayerPositionAndLook, xAt: nat, yAt: nat, zAt: nat, yawAt: nat, pitchAt: nat, flagsAt: nat, teleportIdAt: nat, end: nat)
    requires At(data, zAt, BigEndian(p.z, 8))
    requires At(data, yawAt, BigEndian(p.yaw, 4))
    requires At(data, pitchAt, BigEndian(p.pitch, 4))
    requires zAt == yAt + 8 && yawAt == zAt + 8 && pitchAt == yawAt + 4 && flagsAt == pitchAt + 4
    ensures UnsignedAt(data, zAt, 8) == Ok((p.z as nat, yawAt))
    ensures UnsignedAt(data, yawAt, 4) == Ok((p.yaw as nat, pitchAt))
    ensures UnsignedAt(data, pitchAt, 4) == Ok((p.pitch as nat, flagsAt))
  {
    DoubleRoundTrip(data, zAt, p.z, yawAt);
    FloatRoundTrip(data, yawAt, p.yaw, pitchAt);
    FloatRoundTrip(data, pitchAt, p.pitch, flagsAt);
  }

  lemma PlayerPositionAndLookReadsBackPart3(data: seq<byte>, off: nat, p: PlayerPositionAndLook, xAt: nat, yAt: nat, zAt: nat, yawAt: nat, pitchAt: nat, flagsAt: nat, teleportIdAt: nat, end: nat)
    requires p.teleportId >= 0
    requires At(data, flagsAt, [p.flags])
    requires At(data, teleportIdAt, VarintBytes(p.teleportId))
    requires flagsAt == pitchAt + 4 && teleportIdAt == flagsAt + 1 && end == teleportIdAt + |VarintBytes(p.teleportId)|
    ensures ByteAt(data, flagsAt) == Ok((p.flags, teleportIdAt))
    ensures VarintAt(data, teleportIdAt) == Ok((p.teleportId as int, end))
  {
    ByteRoundTrip(data, flagsAt, p.flags);
    VarintReadsBack(data, teleportIdAt, p.teleportId, end);
  }

  /** Player Position And Look reads back as the same bit patterns, flags and teleport id. */
  lemma PlayerPositionAndLookReadsBack(data: seq<byte>, off: nat, p: PlayerPositionAndLook, xAt: nat, yAt: nat, zAt: nat, yawAt: nat, pitchAt: nat, flagsAt: nat, teleportIdAt: nat, end: nat)
    requires p.teleportId >= 0
    requires At(data, off, PlayerPositionAndLookBytes(p))
    requires xAt == off + 1 && yAt == xAt + 8 && zAt == yAt + 8 && yawAt == zAt + 8 && pitchAt == yawAt + 4 && flagsAt == pitchAt + 4 && teleportIdAt == flagsAt + 1 && end == teleportIdAt + |VarintBytes(p.teleportId)|
    ensures VarintAt(data, off) == Ok((0x36 as int, xAt))
    ensures UnsignedAt(data, xAt, 8) == Ok((p.x as nat, yAt))
    ensures UnsignedAt(data, yAt, 8) == Ok((p.y as nat, zAt))
    ensures UnsignedAt(data, zAt, 8) == Ok((p.z as nat, yawAt))
    ensures UnsignedAt(data, yawAt, 4) == Ok((p.yaw as nat, pitchAt))
    ensures UnsignedAt(data, pitchAt, 4) == Ok((p.pitch as nat, flagsAt))
    ensures ByteAt(data, flagsAt) == Ok((p.flags, teleportIdAt))
    ensures VarintAt(data, teleportIdAt) == Ok((p.teleportId as int, end))
  {
    PlayerPositionAndLookLayout(data, off, p, xAt, yAt, zAt, yawAt, pitchAt, flagsAt, teleportIdAt, end);
    PlayerPositionAndLookReadsBackPart1(data, off, p, xAt, yAt, zAt, yawAt, pitchAt, flagsAt, teleportIdAt, end);
    PlayerPositionAndLookReadsBackPart2(data, off, p, xAt, yAt, zAt, yawAt, pitchAt, flagsAt, teleportIdAt, end);
    PlayerPositionAndLookReadsBackPart3(data, off, p, xAt, yAt, zAt, yawAt, pitchAt, flagsAt, teleportIdAt, end);
  }

  /** A chat component the source can write: its JSON text fits a varint
    * length. */
  predicate ChatFits(c: Option<seq<byte>>)
  {
    c.Some? ==> |c.value| < 0x8000_0000
  }

  /** A chat component the client reads back: at most 32767 bytes. */
  predicate ChatReadable(c: Option<seq<byte>>)
  {
    c.Some? ==> |c.value| <= 32767
  }

  /** An optional display name on the wire: a boolean saying whether one
    * follows, then the chat component if it does. */
  function OptionalChatBytes(c: Option<seq<byte>>): seq<byte>
    requires ChatFits(c)
  {
    match c
    case None => BooleanBytes(false)
    case Some(json) => BooleanBytes(true) + StringBytes(json)
  }

  /** The `if p.DisplayName != nil` branch of the entries' `Encode`. */
  method WriteOptionalChat(c: Option<seq<byte>>, w: Writer)
    requires ChatFits(c)
    modifies w
    ensures w.data == old(w.data) + OptionalChatBytes(c)
  {
    if c.Some? {
      w.WriteBoolean(true);
      w.WriteChat(c.value);
      Append3(old(w.data), BooleanBytes(true), StringBytes(c.value));
    } else {
      w.WriteBoolean(false);
    }
  }

  /** The client's reading of an optional chat component. */
  function OptionalChatAt(data: seq<byte>, off: nat): (r: Result<(Option<seq<byte>>, nat)>)
    requires off <= |data|
    ensures r.Ok? ==> off < r.value.1 <= |data|
  {
    match BooleanAt(data, off)
    case Err(e) => Err(e)
    case Ok((present, next)) =>
      if !present then Ok((None, next))
      else
        match StringAt(data, next, 32767)
        case Err(e) => Err(e)
        case Ok((json, end)) => Ok((Some(json), end))
  }

  lemma OptionalChatReadsBack(data: seq<byte>, off: nat, c: Option<seq<byte>>, end: nat)
    requires ChatFits(c) && ChatReadable(c)
    requires At(data, off, OptionalChatBytes(c)) && end == off + |OptionalChatBytes(c)|
    ensures OptionalChatAt(data, off) == Ok((c, end))
  {
    if c.Some? {
      AtSplit(data, off, BooleanBytes(true), StringBytes(c.value));
      BooleanRoundTrip(data, off, true);
      StringRoundTrip(data, off + 1, c.value, 32767);
    } else {
      BooleanRoundTrip(data, off, false);
    }
  }

  /** An entry of Player Info. The source has one struct per action; each
    * list of `PlayerInfo` holds entries of one kind. */
  datatype PIEntry =
    | PIAddPlayer(uuid: seq<byte>, name: seq<byte>, gamemode: int32, ping: int32, displayName: Option<seq<byte>>)
    | PIUpdateGamemode(uuid: seq<byte>, gamemode: int32)
    | PIUpdateLatency(uuid: seq<byte>, ping: int32)
    | PIDisplayName(uuid: seq<byte>, displayName: Option<seq<byte>>)
    | PIRemovePlayer(uuid: seq<byte>)
  {
    /** What `Encode` needs to finish: a 16-byte UUID, varints that are not
      * negative and text whose length fits a varint. */
    predicate Valid()
    {
      |uuid| == 16 &&
      match this
      case PIAddPlayer(_, name, gamemode, ping, displayName) =>
        |name| < 0x8000_0000 && gamemode >= 0 && ping >= 0 && ChatFits(displayName)
      case PIUpdateGamemode(_, gamemode) => gamemode >= 0
      case PIUpdateLatency(_, ping) => ping >= 0
      case PIDisplayName(_, displayName) => ChatFits(displayName)
      case PIRemovePlayer(_) => true
    }

    /** What the client accepts: a name of at most 16 bytes and a display
      * name of at most 32767. */
    predicate Readable()
    {
      match this
      case PIAddPlayer(_, name, _, _, displayName) => |name| <= 16 && ChatReadable(displayName)
      case PIDisplayName(_, displayName) => ChatReadable(displayName)
      case _ => true
    }

    /** The action number of the entry's list. */
    function Action(): int
    {
      match this
      case PIAddPlayer(_, _, _, _, _) => 0
      case PIUpdateGamemode(_, _) => 1
      case PIUpdateLatency(_, _) => 2
      case PIDisplayName(_, _) => 3
      case PIRemovePlayer(_) => 4
    }
  }

  /** Each entry's `Encode`: the UUID, then what the action changes. */
  function EntryBytes(e: PIEntry): seq<byte>
    requires e.Valid()
  {
    e.uuid + EntryBodyBytes(e)
  }

  /** What follows the UUID. Add Player writes a property count of 0 and no
    * properties. */
  function EntryBodyBytes(e: PIEntry): seq<byte>
    requires e.Valid()
  {
    match e
    case PIAddPlayer(_, name, gamemode, ping, displayName) =>
      StringBytes(name) + VarintBytes(0) + (VarintBytes(gamemode) + VarintBytes(ping) + OptionalChatBytes(displayName))
    case PIUpdateGamemode(_, gamemode) => VarintBytes(gamemode)
    case PIUpdateLatency(_, ping) => VarintBytes(ping)
    case PIDisplayName(_, displayName) => OptionalChatBytes(displayName)
    case PIRemovePlayer(_) => []
  }

  method EncodeEntry(e: PIEntry, w: Writer)
    requires e.Valid()
    modifies w
    ensures w.data == old(w.data) + EntryBytes(e)
  {
    w.WriteUUID(e.uuid);
    EncodeEntryBody(e, w);
    Append3(old(w.data), e.uuid, EntryBodyBytes(e));
  }

  /** The writes of each entry kind's `Encode` after the UUID. */
  method EncodeEntryBody(e: PIEntry, w: Writer)
    requires e.Valid()
    modifies w
    ensures w.data == old(w.data) + EntryBodyBytes(e)
  {
    match e
    case PIAddPlayer(_, _, _, _, _) =>
      EncodeAddPlayerBody(e, w);
    case PIUpdateGamemode(_, gamemode) =>
      w.WriteVarint(gamemode);
    case PIUpdateLatency(_, ping) =>
      w.WriteVarint(ping);
    case PIDisplayName(_, displayName) =>
      WriteOptionalChat(displayName, w);
    case PIRemovePlayer(_) =>
      assert w.data == old(w.data) + [];
  }

  /** The part of Add Player's `Encode` after the UUID. */
  method EncodeAddPlayerBody(e: PIEntry, w: Writer)
    requires e.PIAddPlayer? && e.Valid()
    modifies w
    ensures w.data == old(w.data) + EntryBodyBytes(e)
  {
    ghost var n, z := StringBytes(e.name), VarintBytes(0);
    w.WriteString(e.name);
    w.WriteVarint(0);
    Append3(old(w.data), n, z);
    EncodePlayerState(e, w);
    Append3(old(w.data), n + z, VarintBytes(e.gamemode) + VarintBytes(e.ping) + OptionalChatBytes(e.displayName));
  }

  /** Game mode, latency and display name of an Add Player entry. */
  method EncodePlayerState(e: PIEntry, w: Writer)
    requires e.PIAddPlayer? && e.Valid()
    modifies w
    ensures w.data == old(w.data) + (VarintBytes(e.gamemode) + VarintBytes(e.ping) + OptionalChatBytes(e.displayName))
  {
    w.WriteVarint(e.gamemode);
    w.WriteVarint(e.ping);
    Append3(old(w.data), VarintBytes(e.gamemode), VarintBytes(e.ping));
    WriteOptionalChat(e.displayName, w);
    Append3(old(w.data), VarintBytes(e.gamemode) + VarintBytes(e.ping), OptionalChatBytes(e.displayName));
  }

  const PropertiesNotModelled := "player properties are not part of this model"

  /** The rest of an Add Player entry after its UUID. The client reads a
    * property list; the only count the model reads is the 0 the source
    * writes. */
  function AddPlayerAt(data: seq<byte>, off: nat, uuid: seq<byte>): (r: Result<(PIEntry, nat)>)
    requires off <= |data|
    ensures r.Ok? ==> off < r.value.1 <= |data|
  {
    match StringAt(data, off, 16)
    case Err(e) => Err(e)
    case Ok((name, propertiesAt)) =>
      match VarintAt(data, propertiesAt)
      case Err(e) => Err(e)
      case Ok((properties, gamemodeAt)) =>
        if properties != 0 then Err(PropertiesNotModelled)
        else PlayerStateAt(data, gamemodeAt, uuid, name)
  }

  /** The game mode, the latency and the display name of an Add Player
    * entry. */
  function PlayerStateAt(data: seq<byte>, off: nat, uuid: seq<byte>, name: seq<byte>): (r: Result<(PIEntry, nat)>)
    requires off <= |data|
    ensures r.Ok? ==> off < r.value.1 <= |data|
  {
    match Int32At(data, off)
    case Err(e) => Err(e)
    case Ok((gamemode, pingAt)) =>
      match Int32At(data, pingAt)
      case Err(e) => Err(e)
      case Ok((ping, displayNameAt)) =>
        match OptionalChatAt(data, displayNameAt)
        case Err(e) => Err(e)
        case Ok((displayName, end)) => Ok((PIAddPlayer(uuid, name, gamemode, ping, displayName), end))
  }

  /** The client's reading of what follows the UUID of an entry of the list
    * sent with `action`. */
  function EntryBodyAt(data: seq<byte>, off: nat, action: int, uuid: seq<byte>): (r: Result<(PIEntry, nat)>)
    requires off <= |data|
    ensures r.Ok? ==> off <= r.value.1 <= |data|
  {
    if action == 0 then AddPlayerAt(data, off, uuid)
    else if action == 1 then
      match Int32At(data, off)
      case Err(e) => Err(e)
      case Ok((gamemode, end)) => Ok((PIUpdateGamemode(uuid, gamemode), end))
    else if action == 2 then
      match Int32At(data, off)
      case Err(e) => Err(e)
      case Ok((ping, end)) => Ok((PIUpdateLatency(uuid, ping), end))
    else if action == 3 then
      match OptionalChatAt(data, off)
      case Err(e) => Err(e)
      case Ok((displayName, end)) => Ok((PIDisplayName(uuid, displayName), end))
    else Ok((PIRemovePlayer(uuid), off))
  }

  /** The client's reading of one entry: the UUID, then the rest. */
  function EntryAt(data: seq<byte>, off: nat, action: int): (r: Result<(PIEntry, nat)>)
    requires off <= |data|
    ensures r.Ok? ==> off < r.value.1 <= |data|
  {
    match BytesAt(data, off, 16)
    case Err(e) => Err(e)
    case Ok((uuid, next)) => EntryBodyAt(data, next, action, uuid)
  }

  lemma PlayerStateReadsBack(data: seq<byte>, off: nat, e: PIEntry, end: nat)
    requires e.PIAddPlayer? && e.Valid() && e.Readable()
    requires At(data, off, VarintBytes(e.gamemode) + VarintBytes(e.ping) + OptionalChatBytes(e.displayName))
    requires end == off + |VarintBytes(e.gamemode) + VarintBytes(e.ping) + OptionalChatBytes(e.displayName)|
    ensures PlayerStateAt(data, off, e.uuid, e.name) == Ok((e, end))
  {
    var g, p, d := VarintBytes(e.gamemode), VarintBytes(e.ping), OptionalChatBytes(e.displayName);
    var pingAt, displayNameAt := off + |g|, off + |g| + |p|;
    AtSplit(data, off, g + p, d);
    AtSplit(data, off, g, p);
    Int32RoundTrip(data, off, e.gamemode, pingAt);
    Int32RoundTrip(data, pingAt, e.ping, displayNameAt);
    OptionalChatReadsBack(data, displayNameAt, e.displayName, end);
  }

  lemma AddPlayerReadsBack(data: seq<byte>, off: nat, e: PIEntry, end: nat)
    requires e.PIAddPlayer? && e.Valid() && e.Readable()
    requires At(data, off, EntryBodyBytes(e)) && end == off + |EntryBodyBytes(e)|
    ensures AddPlayerAt(data, off, e.uuid) == Ok((e, end))
  {
    var n, z, rest := StringBytes(e.name), VarintBytes(0), VarintBytes(e.gamemode) + VarintBytes(e.ping) + OptionalChatBytes(e.displayName);
    AtSplit(data, off, n + z, rest);
    AtSplit(data, off, n, z);
    StringRoundTrip(data, off, e.name, 16);
    VarintRoundTrip(data, off + |n|, 0);
    PlayerStateReadsBack(data, off + |n| + |z|, e, end);
  }

  /** What follows the UUID reads back under the entry's own action. */
  lemma EntryBodyReadsBack(data: seq<byte>, off: nat, e: PIEntry, end: nat)
    requires e.Valid() && e.Readable()
    requires At(data, off, EntryBodyBytes(e)) && end == off + |EntryBodyBytes(e)|
    ensures EntryBodyAt(data, off, e.Action(), e.uuid) == Ok((e, end))
  {
    match e
    case PIAddPlayer(_, _, _, _, _) => AddPlayerReadsBack(data, off, e, end);
    case PIUpdateGamemode(_, gamemode) => Int32RoundTrip(data, off, gamemode, end);
    case PIUpdateLatency(_, ping) => Int32RoundTrip(data, off, ping, end);
    case PIDisplayName(_, displayName) => OptionalChatReadsBack(data, off, displayName, end);
    case PIRemovePlayer(_) =>
  }

  /** Every entry reads back under its own action. */
  lemma EntryReadsBack(data: seq<byte>, off: nat, e: PIEntry, end: nat)
    requires e.Valid() && e.Readable() && At(data, off, EntryBytes(e)) && end == off + |EntryBytes(e)|
    ensures EntryAt(data, off, e.Action()) == Ok((e, end))
  {
    AtSplit(data, off, e.uuid, EntryBodyBytes(e));
    BytesRoundTrip(data, off, e.uuid);
    EntryBodyReadsBack(data, off + 16, e, end);
  }

  predicate AllValid(es: seq<PIEntry>)
  {
    forall i :: 0 <= i < |es| ==> es[i].Valid()
  }

  predicate AllReadable(es: seq<PIEntry>)
  {
    forall i :: 0 <= i < |es| ==> es[i].Readable()
  }

  /** A list `Encode` can send under `action`: entries of that kind only,
    * each of them encodable, and a count that fits an `int32`. */
  predicate ListOf(es: seq<PIEntry>, action: int)
  {
    AllValid(es) && OfKind(es, action) && |es| < 0x8000_0000
  }

  /** Every entry of the list is of the kind `action` selects. */
  predicate OfKind(es: seq<PIEntry>, action: int)
  {
    forall i :: 0 <= i < |es| ==> es[i].Action() == action
  }

  /** The entries of a list, one after the other. */
  function EntriesBytes(es: seq<PIEntry>): seq<byte>
    requires AllValid(es)
  {
    if es == [] then [] else EntriesBytes(es[..|es| - 1]) + EntryBytes(es[|es| - 1])
  }

  /** The `for` loop over a list's entries. */
  method EncodeEntries(es: seq<PIEntry>, w: Writer)
    requires AllValid(es)
    modifies w
    ensures w.data == old(w.data) + EntriesBytes(es)
  {
    var i := 0;
    while i < |es|
      invariant 0 <= i <= |es|
      invariant w.data == old(w.data) + EntriesBytes(es[..i])
    {
      EncodeEntry(es[i], w);
      assert es[..i + 1][..i] == es[..i];
      Append3(old(w.data), EntriesBytes(es[..i]), EntryBytes(es[i]));
      i := i + 1;
    }
    assert es[..i] == es;
  }

  /** The client's reading of `n` entries of the list sent with `action`. */
  function EntriesAt(data: seq<byte>, off: nat, action: int, n: nat): (r: Result<(seq<PIEntry>, nat)>)
    requires off <= |data|
    ensures r.Ok? ==> off <= r.value.1 <= |data| && |r.value.0| == n
    decreases n
  {
    if n == 0 then Ok(([], off))
    else
      match EntriesAt(data, off, action, n - 1)
      case Err(e) => Err(e)
      case Ok((es, next)) =>
        match EntryAt(data, next, action)
        case Err(e) => Err(e)
        case Ok((entry, end)) => Ok((es + [entry], end))
  }

  /** One more entry read after `n - 1` of them. */
  lemma EntriesAtStep(data: seq<byte>, off: nat, action: int, n: nat, init: seq<PIEntry>, mid: nat, last: PIEntry, end: nat)
    requires off <= mid <= |data| && n > 0
    requires EntriesAt(data, off, action, n - 1) == Ok((init, mid))
    requires EntryAt(data, mid, action) == Ok((last, end))
    ensures EntriesAt(data, off, action, n) == Ok((init + [last], end))
  {
  }

  /** A list of entries sent under `action` reads back as itself. */
  lemma {:induction false} EntriesReadBack(data: seq<byte>, off: nat, es: seq<PIEntry>, action: int, end: nat)
    requires ListOf(es, action) && AllReadable(es)
    requires At(data, off, EntriesBytes(es)) && end == off + |EntriesBytes(es)|
    ensures EntriesAt(data, off, action, |es|) == Ok((es, end))
  {
    if es != [] {
      var init, last := es[..|es| - 1], es[|es| - 1];
      InitLast(es);
      var mid := off + |EntriesBytes(init)|;
      AtSplit(data, off, EntriesBytes(init), EntryBytes(last));
      assert ListOf(init, action) && AllReadable(init) by {
        forall i | 0 <= i < |init| ensures init[i] == es[i] { }
      }
      EntriesReadBack(data, off, init, action, mid);
      EntryReadsBack(data, mid, last, end);
      EntriesAtStep(data, off, action, |es|, init, mid, last, end);
    }
  }

  datatype PlayerInfo = PlayerInfo(
    addPlayer: seq<PIEntry>,
    updateGamemode: seq<PIEntry>,
    updateLatency: seq<PIEntry>,
    updateDisplayName: seq<PIEntry>,
    removePlayer: seq<PIEntry>)
  {
    /** Each list holds the entry kind its Go type fixes. The list `Encode`
      * sends, the first non-empty one, also has entries that can be encoded
      * and a length that fits an `int32`; the lists it skips are not read. */
    predicate Valid()
    {
      OfKind(addPlayer, 0) && OfKind(updateGamemode, 1) && OfKind(updateLatency, 2) &&
      OfKind(updateDisplayName, 3) && OfKind(removePlayer, 4) &&
      (addPlayer != [] ==> ListOf(addPlayer, 0)) &&
      (addPlayer == [] && updateGamemode != [] ==> ListOf(updateGamemode, 1)) &&
      (addPlayer == [] && updateGamemode == [] && updateLatency != [] ==> ListOf(updateLatency, 2)) &&
      (addPlayer == [] && updateGamemode == [] && updateLatency == [] && updateDisplayName != [] ==>
        ListOf(updateDisplayName, 3)) &&
      (addPlayer == [] && updateGamemode == [] && updateLatency == [] && updateDisplayName == [] ==>
        ListOf(removePlayer, 4))
    }
  }

  /** The action Player Info sends and the list it sends with it: the first
    * non-empty list in the order add, game mode, latency, display name,
    * remove; none when all are empty. */
  function Selected(p: PlayerInfo): (r: Option<(int32, seq<PIEntry>)>)
    ensures r.None? <==> p.addPlayer == [] && p.updateGamemode == [] && p.updateLatency == [] && p.updateDisplayName == [] && p.removePlayer == []
    ensures r.Some? ==> 0 <= r.value.0 <= 4 && r.value.1 != []
    ensures r.Some? ==> r.value.1 == [p.addPlayer, p.updateGamemode, p.updateLatency, p.updateDisplayName, p.removePlayer][r.value.0]
    ensures r.Some? ==> forall k :: 0 <= k < r.value.0 ==> [p.addPlayer, p.updateGamemode, p.updateLatency, p.updateDisplayName, p.removePlayer][k] == []
    ensures r.Some? && p.Valid() ==> ListOf(r.value.1, r.value.0)
  {
    if p.addPlayer != [] then Some((0, p.addPlayer))
    else if p.updateGamemode != [] then Some((1, p.updateGamemode))
    else if p.updateLatency != [] then Some((2, p.updateLatency))
    else if p.updateDisplayName != [] then Some((3, p.updateDisplayName))
    else if p.removePlayer != [] then Some((4, p.removePlayer))
    else None
  }

  /** What follows the packet id: the action, the count and the entries of
    * the selected list. */
  function PlayerInfoBodyBytes(p: PlayerInfo): seq<byte>
    requires p.Valid()
  {
    match Selected(p)
    case None => []
    case Some((action, es)) => VarintBytes(action) + VarintBytes(|es|) + EntriesBytes(es)
  }

  function PlayerInfoBytes(p: PlayerInfo): seq<byte>
    requires p.Valid()
  {
    VarintBytes(0x34) + PlayerInfoBodyBytes(p)
  }

  /** `Encode`: the action and the entries of the first non-empty list only;
    * with every list empty, the packet id alone. */
  method EncodePlayerInfo(p: PlayerInfo, w: Writer)
    requires p.Valid()
    modifies w
    ensures w.data == old(w.data) + PlayerInfoBytes(p)
  {
    w.WriteVarint(0x34);
    ghost var d1 := w.data;
    if |p.addPlayer| != 0 {
      EncodeList(0, p.addPlayer, w);
    } else if |p.updateGamemode| != 0 {
      EncodeList(1, p.updateGamemode, w);
    } else if |p.updateLatency| != 0 {
      EncodeList(2, p.updateLatency, w);
    } else if |p.updateDisplayName| != 0 {
      EncodeList(3, p.updateDisplayName, w);
    } else if |p.removePlayer| != 0 {
      EncodeList(4, p.removePlayer, w);
    }
    assert w.data == d1 + PlayerInfoBodyBytes(p);
    Append3(old(w.data), VarintBytes(0x34), PlayerInfoBodyBytes(p));
  }

  /** One branch of `Encode`: the action, the list's length, its entries. */
  method EncodeList(action: int32, es: seq<PIEntry>, w: Writer)
    requires action >= 0 && AllValid(es) && |es| < 0x8000_0000
    modifies w
    ensures w.data == old(w.data) + (VarintBytes(action) + VarintBytes(|es|) + EntriesBytes(es))
  {
    ghost var d0 := w.data;
    w.WriteVarint(action);
    w.WriteVarint(|es|);
    Append3(d0, VarintBytes(action), VarintBytes(|es|));
    EncodeEntries(es, w);
    Append3(d0, VarintBytes(action) + VarintBytes(|es|), EntriesBytes(es));
  }

  /** With every list empty the packet is its id alone. */
  lemma PlayerInfoEmpty(p: PlayerInfo)
    requires p.Valid() && p.addPlayer == [] && p.updateGamemode == [] && p.updateLatency == [] && p.updateDisplayName == [] && p.removePlayer == []
    ensures PlayerInfoBytes(p) == [0x34]
  {
    assert VarintBytes(0x34) == [0x34];
  }

  /** The action, the count and the entries read back. */
  lemma ListReadsBack(data: seq<byte>, actionAt: nat, action: int32, es: seq<PIEntry>, countAt: nat, entriesAt: nat, end: nat)
    requires 0 <= action <= 4 && ListOf(es, action) && AllReadable(es)
    requires At(data, actionAt, VarintBytes(action) + VarintBytes(|es|) + EntriesBytes(es))
    requires countAt == actionAt + |VarintBytes(action)| && entriesAt == countAt + |VarintBytes(|es|)| && end == entriesAt + |EntriesBytes(es)|
    ensures VarintAt(data, actionAt) == Ok((action as int, countAt))
    ensures VarintAt(data, countAt) == Ok((|es|, entriesAt))
    ensures EntriesAt(data, entriesAt, action as int, |es|) == Ok((es, end))
  {
    var a, n, b := VarintBytes(action), VarintBytes(|es|), EntriesBytes(es);
    AtSplit3(data, actionAt, a, n, b, countAt, entriesAt);
    VarintReadsBack(data, actionAt, action, countAt);
    VarintReadsBack(data, countAt, |es|, entriesAt);
    EntriesReadBack(data, entriesAt, es, action as int, end);
  }

  /** Player Info reads back as the action, the count and the entries of
    * the selected list. */
  lemma PlayerInfoReadsBack(data: seq<byte>, off: nat, p: PlayerInfo, action: int32, es: seq<PIEntry>, actionAt: nat, countAt: nat, entriesAt: nat, end: nat)
    requires p.Valid() && Selected(p) == Some((action, es)) && AllReadable(es) && At(data, off, PlayerInfoBytes(p))
    requires actionAt == off + 1 && countAt == actionAt + 1 && entriesAt == countAt + |VarintBytes(|es|)|
    requires end == entriesAt + |EntriesBytes(es)|
    ensures end == off + |PlayerInfoBytes(p)|
    ensures VarintAt(data, off) == Ok((0x34 as int, actionAt))
    ensures VarintAt(data, actionAt) == Ok((action as int, countAt))
    ensures VarintAt(data, countAt) == Ok((|es|, entriesAt))
    ensures EntriesAt(data, entriesAt, action as int, |es|) == Ok((es, end))
  {
    AtSplit(data, off, VarintBytes(0x34), PlayerInfoBodyBytes(p));
    VarintLength16(0x34);
    VarintLength16(action);
    VarintRoundTrip(data, off, 0x34);
    ListReadsBack(data, actionAt, action, es, countAt, entriesAt, end);
  }
}
