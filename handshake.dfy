/** The handshaking state (server/handshaking/handlers.go): the first packet
  * a client sends names its protocol version and the state it wants next.
  * A status request is always granted; a login is granted only to protocol
  * 578, and any other client is sent a login Disconnect and dropped. The
  * connection's state and its queue of outgoing packets are the fields of
  * `Connection`; `log.Println` output is not modelled, and the panic of
  * `log.Panicln` and of a failed read is an `Err` that leaves the
  * connection as it was. */
module Handshake {
  import opened Bytes
  import opened Wrappers
  import opened Readers
  import opened Writers
  import LoginPackets
  import opened GenerateItems

  /** `socket.State`. */
  datatype ConnState = Disconnected | Handshaking | Status | Login | Play

  /** The protocol version of Minecraft 1.15.2. */
  const ProtocolVersion := 578

  /** The message `log.Panicln` prints and panics with for an unknown next
    * state: its operands separated by a space, the state in decimal, and a
    * line break. */
  function InvalidState(nextState: int): (s: string)
    ensures |s| == 25 + |IntText(nextState)|
    ensures s[..24] == "Requested invalid state "
    ensures s[24..|s| - 1] == IntText(nextState) && s[|s| - 1] == '\n'
  {
    "Requested invalid state " + IntText(nextState) + "\n"
  }

  /** The panic message names the state that was refused. */
  lemma InvalidStateNamesState(a: int, b: int)
    requires InvalidState(a) == InvalidState(b)
    ensures a == b
  {
    var s, t := InvalidState(a), InvalidState(b);
    assert s[24..|s| - 1] == t[24..|t| - 1];
    IntTextInjective(a, b);
  }

  /** The kick reason: the JSON that `encoding/json` makes of the red,
    * bold, italic, underlined and struck-through chat "Invalid protocol
    * version" (false and empty fields are omitted, the others appear in
    * the struct's field order). */
  const KickJson: string :=
    "{\"text\":\"Invalid protocol version\",\"bold\":true,\"italic\":true,\"underlined\":true,\"strikethrough\":true,\"color\":\"red\"}"

  /** The bytes of the kick reason: every character of `KickJson` is
    * ASCII, so each is one byte, its code. */
  function KickReason(): (r: seq<byte>)
    ensures |r| == |KickJson| <= 32767
  {
    seq(|KickJson|, i requires 0 <= i < |KickJson| => (KickJson[i] as int) % 256)
  }

  /** The Disconnect packet sent to a client with the wrong protocol. */
  function Kick(): (p: LoginPackets.Disconnect)
    ensures p.reason == KickReason()
  {
    LoginPackets.Disconnect(KickReason())
  }

  /** The fields of the handshake packet, as the reads return them. */
  datatype Handshake = Handshake(protocol: int, address: seq<byte>, port: nat, nextState: int)

  /** The handler's four reads: a varint protocol version, a string of at
    * most 255 bytes, an unsigned short and a varint next state. The first
    * read that fails ends the handler. */
  function HandshakeAt(data: seq<byte>, off: nat): (r: Result<(Handshake, nat)>)
    requires off <= |data|
    ensures r.Ok? ==> off < r.value.1 <= |data| && r.value.0.port < 0x1_0000 && |r.value.0.address| <= 255
  {
    match VarintAt(data, off)
    case Err(e) => Err(e)
    case Ok((protocol, a)) =>
      match StringAt(data, a, 255)
      case Err(e) => Err(e)
      case Ok((address, b)) =>
        assert |address| <= 255;
        match UnsignedAt(data, b, 2)
        case Err(e) => Err(e)
        case Ok((port, c)) =>
          assert Pow256(2) == 0x1_0000;
          match VarintAt(data, c)
          case Err(e) => Err(e)
          case Ok((nextState, d)) => Ok((Handshake(protocol, address, port, nextState), d))
  }

  /** The state a handshake leads to, or the panic of an unknown next
    * state. The protocol version matters only for a login. */
  function Next(protocol: int, nextState: int): (r: Result<ConnState>)
    ensures r.Err? <==> nextState != 1 && nextState != 2
    ensures r.Err? ==> r.error == InvalidState(nextState)
    ensures r.Ok? ==> r.value in {Status, Login, Disconnected}
  {
    if nextState == 1 then Ok(Status)
    else if nextState == 2 then
      if protocol != ProtocolVersion then Ok(Disconnected) else Ok(Login)
    else Err(InvalidState(nextState))
  }

  /** The three transitions: status for any protocol, login only for
    * protocol 578, and the kick for a login from any other protocol. */
  lemma Transitions(protocol: int, nextState: int)
    ensures Next(protocol, nextState) == Ok(Status) <==> nextState == 1
    ensures Next(protocol, nextState) == Ok(Login) <==> nextState == 2 && protocol == ProtocolVersion
    ensures Next(protocol, nextState) == Ok(Disconnected) <==> nextState == 2 && protocol != ProtocolVersion
  {
  }

  /** A handshake never leads straight to play, and never back to
    * handshaking. */
  lemma NeverPlay(protocol: int, nextState: int)
    ensures Next(protocol, nextState) != Ok(Play) && Next(protocol, nextState) != Ok(Handshaking)
  {
  }

  /** What the connection sends for a transition: the kick exactly when it
    * is dropped. */
  function Sent(s: ConnState): (r: seq<LoginPackets.Disconnect>)
    ensures |r| <= 1
    ensures r != [] <==> s == Disconnected
  {
    if s == Disconnected then [Kick()] else []
  }

  /** A client connection: its protocol state and the packets queued for
    * it by `player.Send`. */
  class Connection {
    var state: ConnState
    var outbox: seq<LoginPackets.Disconnect>

    constructor ()
      ensures state == Handshaking && outbox == []
    {
      state := Handshaking;
      outbox := [];
    }
  }

  /** `HandleHandshaking`. A failed read or an unknown next state is a
    * panic: the connection keeps its state and nothing is sent. Otherwise
    * the reader has consumed the handshake, the connection moves to
    * `Next`, and the kick is queued exactly when that is `Disconnected`. */
  method HandleHandshaking(c: Connection, reader: Reader) returns (r: Result<ConnState>)
    requires reader.Valid()
    modifies c, reader
    ensures reader.Valid() && old(reader.offset) <= reader.offset
    ensures match HandshakeAt(reader.data, old(reader.offset))
      case Err(e) =>
        r == Err(e) && c.state == old(c.state) && c.outbox == old(c.outbox)
      case Ok((h, end)) =>
        reader.offset == end && r == Next(h.protocol, h.nextState) &&
        (r.Err? ==> c.state == old(c.state) && c.outbox == old(c.outbox)) &&
        (r.Ok? ==> c.state == r.value && c.outbox == old(c.outbox) + Sent(r.value))
  {
    ghost var off := reader.offset;
    var protocol := reader.ReadVarint();
    if protocol.Err? {
      return Err(protocol.error);
    }
    var address := reader.ReadString(255);
    if address.Err? {
      return Err(address.error);
    }
    var port := reader.ReadUShort();
    if port.Err? {
      return Err(port.error);
    }
    var nextState := reader.ReadVarint();
    if nextState.Err? {
      return Err(nextState.error);
    }
    if nextState.value == 1 {
      c.state := Status;
    } else if nextState.value == 2 {
      if protocol.value != ProtocolVersion {
        c.outbox := c.outbox + [Kick()];
        c.state := Disconnected;
      } else {
        c.state := Login;
      }
    } else {
      return Err(InvalidState(nextState.value));
    }
    r := Ok(c.state);
  }

  /** The handshake a client writes: the protocol version and the next
    * state as varints, the server address as a string and the port as an
    * unsigned short. */
  function HandshakeBytes(h: Handshake): seq<byte>
    requires 0 <= h.protocol < 0x8000_0000 && 0 <= h.nextState < 0x8000_0000
    requires |h.address| <= 255 && h.port < 0x1_0000
  {
    VarintBytes(h.protocol) + StringBytes(h.address) + BigEndian(h.port, 2) + VarintBytes(h.nextState)
  }

  /** The handler's reads give back every field of a handshake written
    * with non-negative varints and an address of at most 255 bytes, and
    * stop right after it. */
  lemma HandshakeReadsBack(data: seq<byte>, off: nat, h: Handshake, addressAt: nat, portAt: nat, nextAt: nat, end: nat)
    requires 0 <= h.protocol < 0x8000_0000 && 0 <= h.nextState < 0x8000_0000
    requires |h.address| <= 255 && h.port < 0x1_0000
    requires At(data, off, HandshakeBytes(h))
    requires addressAt == off + |VarintBytes(h.protocol)|
    requires portAt == addressAt + |StringBytes(h.address)|
    requires nextAt == portAt + 2 && end == nextAt + |VarintBytes(h.nextState)|
    ensures HandshakeAt(data, off) == Ok((h, end))
  {
    var a, b, c, d := VarintBytes(h.protocol), StringBytes(h.address), BigEndian(h.port, 2), VarintBytes(h.nextState);
    AtSplitAt(data, off, a + b + c, d, nextAt);
    AtSplit3(data, off, a, b, c, addressAt, portAt);
    VarintReadsBack(data, off, h.protocol, addressAt);
    StringReadsBack(data, addressAt, h.address, 255, portAt);
    assert Pow256(2) == 0x1_0000;
    Readers.UnsignedRoundTrip(data, portAt, h.port, 2);
    VarintReadsBack(data, nextAt, h.nextState, end);
  }

  /** The kick the client receives reads back as its reason. */
  lemma KickReadsBack(data: seq<byte>, off: nat, end: nat)
    requires At(data, off, LoginPackets.DisconnectBytes(Kick()))
    requires end == off + 1 + |StringBytes(KickReason())|
    ensures VarintAt(data, off) == Ok((0x00 as int, off + 1))
    ensures ChatAtFixed(data, off + 1) == Ok((KickReason(), end))
  {
    LoginPackets.DisconnectReadsBack(data, off, Kick(), off + 1, end);
  }
}
