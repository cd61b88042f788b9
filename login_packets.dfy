/** The packets the server sends in the login state
  * (minecraft/proto/login/packets.go). As for the play packets, each is a
  * value whose `Encode` appends the packet id as a varint, then its fields,
  * and each layout is paired with the client's reading of it. The chat of
  * a disconnect is JSON text the model carries as bytes, and the text form
  * of the player's UUID, which a foreign library renders, is given as
  * bytes. */
module LoginPackets {
  import opened Bytes
  import opened Wrappers
  import opened Writers
  import opened Readers

  datatype Disconnect = Disconnect(reason: seq<byte>)

  function DisconnectBytes(p: Disconnect): seq<byte>
    requires |p.reason| < 0x8000_0000
  {
    VarintBytes(0x00) + StringBytes(p.reason)
  }

  method EncodeDisconnect(p: Disconnect, w: Writer)
    requires |p.reason| < 0x8000_0000
    modifies w
    ensures w.data == old(w.data) + DisconnectBytes(p)
  {
    ghost var d0 := w.data;
    w.WriteVarint(0x00);
    w.WriteChat(p.reason);
    Append3(d0, VarintBytes(0x00), StringBytes(p.reason));
  }

  /** Where each field of Disconnect sits when its bytes are at `off`. */
  lemma DisconnectLayout(data: seq<byte>, off: nat, p: Disconnect, reasonAt: nat, end: nat)
    requires |p.reason| < 0x8000_0000
    requires At(data, off, DisconnectBytes(p))
    requires reasonAt == off + 1 && end == reasonAt + |StringBytes(p.reason)|
    ensures end == off + |DisconnectBytes(p)|
    ensures At(data, off, VarintBytes(0x00)) && At(data, reasonAt, StringBytes(p.reason))
  {
    AtSplitAt(data, off, VarintBytes(0x00), StringBytes(p.reason), reasonAt);
  }

  /** Disconnect reads back as the reason. */
  lemma DisconnectReadsBack(data: seq<byte>, off: nat, p: Disconnect, reasonAt: nat, end: nat)
    requires |p.reason| < 0x8000_0000 && |p.reason| <= 32767
    requires At(data, off, DisconnectBytes(p))
    requires reasonAt == off + 1 && end == reasonAt + |StringBytes(p.reason)|
    ensures VarintAt(data, off) == Ok((0x00 as int, reasonAt))
    ensures ChatAtFixed(data, reasonAt) == Ok((p.reason, end))
  {
    DisconnectLayout(data, off, p, reasonAt, end);
    VarintReadsBack(data, off, 0x00, reasonAt);
    ChatReadsBack(data, reasonAt, p.reason, end);
  }

  datatype EncryptionRequest = EncryptionRequest(serverId: seq<byte>, publicKey: seq<byte>, verifyToken: seq<byte>)

  function EncryptionRequestBytes(p: EncryptionRequest): seq<byte>
    requires |p.serverId| < 0x8000_0000 && |p.publicKey| < 0x8000_0000 && |p.verifyToken| < 0x8000_0000
  {
    VarintBytes(0x01) + StringBytes(p.serverId) + StringBytes(p.publicKey) + StringBytes(p.verifyToken)
  }

  /** The server id is a string; the key and the token are each prefixed with their length as a varint. */
  method EncodeEncryptionRequest(p: EncryptionRequest, w: Writer)
    requires |p.serverId| < 0x8000_0000 && |p.publicKey| < 0x8000_0000 && |p.verifyToken| < 0x8000_0000
    modifies w
    ensures w.data == old(w.data) + EncryptionRequestBytes(p)
  {
    ghost var d0 := w.data;
    w.WriteVarint(0x01);
    w.WriteString(p.serverId);
    Append3(d0, VarintBytes(0x01), StringBytes(p.serverId));
    ghost var d2 := w.data;
    w.WriteVarint(|p.publicKey|);
    w.WriteBytes(p.publicKey);
    Append3(d2, VarintBytes(|p.publicKey|), p.publicKey);
    Append3(d0, VarintBytes(0x01) + StringBytes(p.serverId), StringBytes(p.publicKey));
    ghost var d3 := w.data;
    w.WriteVarint(|p.verifyToken|);
    w.WriteBytes(p.verifyToken);
    Append3(d3, VarintBytes(|p.verifyToken|), p.verifyToken);
    Append3(d0, VarintBytes(0x01) + StringBytes(p.serverId) + StringBytes(p.publicKey), StringBytes(p.verifyToken));
  }

  lemma EncryptionRequestLayoutPart1(data: seq<byte>, off: nat, p: EncryptionRequest, serverIdAt: nat, publicKeyAt: nat, verifyTokenAt: nat, end: nat)
    requires |p.serverId| < 0x8000_0000 && |p.publicKey| < 0x8000_0000 && |p.verifyToken| < 0x8000_0000
    requires At(data, off, VarintBytes(0x01) + StringBytes(p.serverId) + StringBytes(p.publicKey))
    requires serverIdAt == off + 1 && publicKeyAt == serverIdAt + |StringBytes(p.serverId)| && verifyTokenAt == publicKeyAt + |StringBytes(p.publicKey)|
    ensures At(data, off, VarintBytes(0x01))
    ensures At(data, serverIdAt, StringBytes(p.serverId))
    ensures At(data, publicKeyAt, StringBytes(p.publicKey))
  {
    AtSplitAt(data, off, VarintBytes(0x01) + StringBytes(p.serverId), StringBytes(p.publicKey), publicKeyAt);
    AtSplitAt(data, off, VarintBytes(0x01), StringBytes(p.serverId), serverIdAt);
  }

  lemma EncryptionRequestLayoutPart2(data: seq<byte>, off: nat, p: EncryptionRequest, serverIdAt: nat, publicKeyAt: nat, verifyTokenAt: nat, end: nat)
    requires |p.serverId| < 0x8000_0000 && |p.publicKey| < 0x8000_0000 && |p.verifyToken| < 0x8000_0000
    requires At(data, off, VarintBytes(0x01) + StringBytes(p.serverId) + StringBytes(p.publicKey) + StringBytes(p.verifyToken))
    requires serverIdAt == off + 1 && publicKeyAt == serverIdAt + |StringBytes(p.serverId)| && verifyTokenAt == publicKeyAt + |StringBytes(p.publicKey)|
    ensures At(data, off, VarintBytes(0x01) + StringBytes(p.serverId) + StringBytes(p.publicKey))
    ensures At(data, verifyTokenAt, StringBytes(p.verifyToken))
  {
    AtSplitAt(data, off, VarintBytes(0x01) + StringBytes(p.serverId) + StringBytes(p.publicKey), StringBytes(p.verifyToken), verifyTokenAt);
  }

  /** Where each field of EncryptionRequest sits when its bytes are at `off`. */
  lemma EncryptionRequestLayout(data: seq<byte>, off: nat, p: EncryptionRequest, serverIdAt: nat, publicKeyAt: nat, verifyTokenAt: nat, end: nat)
    requires |p.serverId| < 0x8000_0000 && |p.publicKey| < 0x8000_0000 && |p.verifyToken| < 0x8000_0000
    requires At(data, off, EncryptionRequestBytes(p))
    requires serverIdAt == off + 1 && publicKeyAt == serverIdAt + |StringBytes(p.serverId)| && verifyTokenAt == publicKeyAt + |StringBytes(p.publicKey)| && end == verifyTokenAt + |StringBytes(p.verifyToken)|
    ensures end == off + |EncryptionRequestBytes(p)|
    ensures At(data, off, VarintBytes(0x01)) && At(data, serverIdAt, StringBytes(p.serverId))
    ensures At(data, publicKeyAt, StringBytes(p.publicKey)) && At(data, verifyTokenAt, StringBytes(p.verifyToken))
  {
    EncryptionRequestLayoutPart2(data, off, p, serverIdAt, publicKeyAt, verifyTokenAt, end);
    EncryptionRequestLayoutPart1(data, off, p, serverIdAt, publicKeyAt, verifyTokenAt, end);
  }

  lemma EncryptionRequestReadsBackPart1(data: seq<byte>, off: nat, p: EncryptionRequest, serverIdAt: nat, publicKeyAt: nat, verifyTokenAt: nat, end: nat)
    requires |p.serverId| < 0x8000_0000 && |p.serverId| <= 32767 && |p.publicKey| < 0x8000_0000
    requires At(data, off, VarintBytes(0x01))
    requires At(data, serverIdAt, StringBytes(p.serverId))
    requires At(data, publicKeyAt, StringBytes(p.publicKey))
    requires serverIdAt == off + 1 && publicKeyAt == serverIdAt + |StringBytes(p.serverId)| && verifyTokenAt == publicKeyAt + |StringBytes(p.publicKey)|
    ensures VarintAt(data, off) == Ok((0x01 as int, serverIdAt))
    ensures StringAt(data, serverIdAt, 32767) == Ok((p.serverId, publicKeyAt))
    ensures StringAt(data, publicKeyAt, 0x7FFF_FFFF) == Ok((p.publicKey, verifyTokenAt))
  {
    VarintReadsBack(data, off, 0x01, serverIdAt);
    StringReadsBack(data, serverIdAt, p.serverId, 32767, publicKeyAt);
    StringReadsBack(data, publicKeyAt, p.publicKey, 0x7FFF_FFFF, verifyTokenAt);
  }

  lemma EncryptionRequestReadsBackPart2(data: seq<byte>, off: nat, p: EncryptionRequest, serverIdAt: nat, publicKeyAt: nat, verifyTokenAt: nat, end: nat)
    requires |p.publicKey| < 0x8000_0000 && |p.verifyToken| < 0x8000_0000
    requires At(data, verifyTokenAt, StringBytes(p.verifyToken))
    requires verifyTokenAt == publicKeyAt + |StringBytes(p.publicKey)| && end == verifyTokenAt + |StringBytes(p.verifyToken)|
    ensures StringAt(data, verifyTokenAt, 0x7FFF_FFFF) == Ok((p.verifyToken, end))
  {
    StringReadsBack(data, verifyTokenAt, p.verifyToken, 0x7FFF_FFFF, end);
  }

  /** Encryption Request reads back as the server id, the public key and the verify token, each as long as written. */
  lemma EncryptionRequestReadsBack(data: seq<byte>, off: nat, p: EncryptionRequest, serverIdAt: nat, publicKeyAt: nat, verifyTokenAt: nat, end: nat)
    requires |p.serverId| < 0x8000_0000 && |p.publicKey| < 0x8000_0000 && |p.verifyToken| < 0x8000_0000 && |p.serverId| <= 32767
    requires At(data, off, EncryptionRequestBytes(p))
    requires serverIdAt == off + 1 && publicKeyAt == serverIdAt + |StringBytes(p.serverId)| && verifyTokenAt == publicKeyAt + |StringBytes(p.publicKey)| && end == verifyTokenAt + |StringBytes(p.verifyToken)|
    ensures VarintAt(data, off) == Ok((0x01 as int, serverIdAt))
    ensures StringAt(data, serverIdAt, 32767) == Ok((p.serverId, publicKeyAt))
    ensures StringAt(data, publicKeyAt, 0x7FFF_FFFF) == Ok((p.publicKey, verifyTokenAt))
    ensures StringAt(data, verifyTokenAt, 0x7FFF_FFFF) == Ok((p.verifyToken, end))
  {
    EncryptionRequestLayout(data, off, p, serverIdAt, publicKeyAt, verifyTokenAt, end);
    EncryptionRequestReadsBackPart1(data, off, p, serverIdAt, publicKeyAt, verifyTokenAt, end);
    EncryptionRequestReadsBackPart2(data, off, p, serverIdAt, publicKeyAt, verifyTokenAt, end);
  }

  datatype LoginSuccess = LoginSuccess(uuidText: seq<byte>, username: seq<byte>)

  function LoginSuccessBytes(p: LoginSuccess): seq<byte>
    requires |p.uuidText| < 0x8000_0000 && |p.username| < 0x8000_0000
  {
    VarintBytes(0x02) + StringBytes(p.uuidText) + StringBytes(p.username)
  }

  /** The UUID is sent in its text form, then the username. */
  method EncodeLoginSuccess(p: LoginSuccess, w: Writer)
    requires |p.uuidText| < 0x8000_0000 && |p.username| < 0x8000_0000
    modifies w
    ensures w.data == old(w.data) + LoginSuccessBytes(p)
  {
    ghost var d0 := w.data;
    w.WriteVarint(0x02);
    w.WriteString(p.uuidText);
    Append3(d0, VarintBytes(0x02), StringBytes(p.uuidText));
    w.WriteString(p.username);
    Append3(d0, VarintBytes(0x02) + StringBytes(p.uuidText), StringBytes(p.username));
  }

  /** Where each field of LoginSuccess sits when its bytes are at `off`. */
  lemma LoginSuccessLayout(data: seq<byte>, off: nat, p: LoginSuccess, uuidTextAt: nat, usernameAt: nat, end: nat)
    requires |p.uuidText| < 0x8000_0000 && |p.username| < 0x8000_0000
    requires At(data, off, LoginSuccessBytes(p))
    requires uuidTextAt == off + 1 && usernameAt == uuidTextAt + |StringBytes(p.uuidText)| && end == usernameAt + |StringBytes(p.username)|
    ensures end == off + |LoginSuccessBytes(p)|
    ensures At(data, off, VarintBytes(0x02)) && At(data, uuidTextAt, StringBytes(p.uuidText))
    ensures At(data, usernameAt, StringBytes(p.username))
  {
    AtSplitAt(data, off, VarintBytes(0x02) + StringBytes(p.uuidText), StringBytes(p.username), usernameAt);
    AtSplitAt(data, off, VarintBytes(0x02), StringBytes(p.uuidText), uuidTextAt);
  }

  /** Login Success reads back as the UUID text, then the username. */
  lemma LoginSuccessReadsBack(data: seq<byte>, off: nat, p: LoginSuccess, uuidTextAt: nat, usernameAt: nat, end: nat)
    requires |p.uuidText| < 0x8000_0000 && |p.username| < 0x8000_0000 && |p.uuidText| <= 32767 && |p.username| <= 32767
    requires At(data, off, LoginSuccessBytes(p))
    requires uuidTextAt == off + 1 && usernameAt == uuidTextAt + |StringBytes(p.uuidText)| && end == usernameAt + |StringBytes(p.username)|
    ensures VarintAt(data, off) == Ok((0x02 as int, uuidTextAt))
    ensures StringAt(data, uuidTextAt, 32767) == Ok((p.uuidText, usernameAt))
    ensures StringAt(data, usernameAt, 32767) == Ok((p.username, end))
  {
    LoginSuccessLayout(data, off, p, uuidTextAt, usernameAt, end);
    VarintReadsBack(data, off, 0x02, uuidTextAt);
    StringReadsBack(data, uuidTextAt, p.uuidText, 32767, usernameAt);
    StringReadsBack(data, usernameAt, p.username, 32767, end);
  }

  datatype SetCompression = SetCompression(threshold: int32)

  function SetCompressionBytes(p: SetCompression): seq<byte>
    requires p.threshold >= 0
  {
    VarintBytes(0x03) + VarintBytes(p.threshold)
  }

  /** The threshold is a varint, so the source only finishes writing a non-negative one. */
  method EncodeSetCompression(p: SetCompression, w: Writer)
    requires p.threshold >= 0
    modifies w
    ensures w.data == old(w.data) + SetCompressionBytes(p)
  {
    ghost var d0 := w.data;
    w.WriteVarint(0x03);
    w.WriteVarint(p.threshold);
    Append3(d0, VarintBytes(0x03), VarintBytes(p.threshold));
  }

  /** Where each field of SetCompression sits when its bytes are at `off`. */
  lemma SetCompressionLayout(data: seq<byte>, off: nat, p: SetCompression, thresholdAt: nat, end: nat)
    requires p.threshold >= 0
    requires At(data, off, SetCompressionBytes(p))
    requires thresholdAt == off + 1 && end == thresholdAt + |VarintBytes(p.threshold)|
    ensures end == off + |SetCompressionBytes(p)|
    ensures At(data, off, VarintBytes(0x03)) && At(data, thresholdAt, VarintBytes(p.threshold))
  {
    AtSplitAt(data, off, VarintBytes(0x03), VarintBytes(p.threshold), thresholdAt);
  }

  /** Set Compression reads back as the threshold. */
  lemma SetCompressionReadsBack(data: seq<byte>, off: nat, p: SetCompression, thresholdAt: nat, end: nat)
    requires p.threshold >= 0
    requires At(data, off, SetCompressionBytes(p))
    requires thresholdAt == off + 1 && end == thresholdAt + |VarintBytes(p.threshold)|
    ensures VarintAt(data, off) == Ok((0x03 as int, thresholdAt))
    ensures VarintAt(data, thresholdAt) == Ok((p.threshold as int, end))
  {
    SetCompressionLayout(data, off, p, thresholdAt, end);
    VarintReadsBack(data, off, 0x03, thresholdAt);
    VarintReadsBack(data, thresholdAt, p.threshold, end);
  }
}
