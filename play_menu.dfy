/** Inventory slots and the Set Slot packet (minecraft/proto/play/menu.go).
  *
  * A slot's NBT is a Go value that `NbtMarshal` writes by reflection under
  * an empty root name; the model gives it as the tag tree that value stands
  * for and writes it with `Nbt.Marshal`. The error `NbtMarshal` may return
  * is discarded by the source and has no counterpart here.
  *
  * `Slot.Encode` writes the slot layout of protocol versions before 1.13
  * (a short item id, a count, a short damage value, NBT). Protocol 578
  * expects a presence flag, a varint item id, a count and NBT, which is
  * also how the server's own Creative Inventory Action handler reads a
  * slot. The layout as written is `SlotDataBytes`; the layout the protocol
  * expects is `SlotDataBytesFixed`. */
module PlayMenu {
  import opened Bytes
  import opened Wrappers
  import opened Writers
  import opened Readers
  import Nbt
  import NbtLaws

  /** The item id of an empty slot. */
  const EmptyItem: int16 := -1

  /** The count `CreateFake` shows. */
  const FakeCount: byte := 69

  datatype Slot = Slot(itemId: int16, itemCount: byte, itemMeta: int16, nbt: Option<Nbt.Tag>)

  /** `CreateFake`: the same item and meta, shown 69 times, without NBT. */
  function CreateFake(s: Slot): (r: Slot)
    ensures r.itemId == s.itemId && r.itemMeta == s.itemMeta
    ensures r.itemCount == FakeCount && r.nbt == None
  {
    Slot(s.itemId, FakeCount, s.itemMeta, None)
  }

  /** Faking a fake slot changes nothing more. */
  lemma FakeIdempotent(s: Slot)
    ensures CreateFake(CreateFake(s)) == CreateFake(s)
  {
  }

  /** The tag tree written for a slot's NBT: a nil NBT marshals the empty
    * struct, which is a compound without entries. */
  function SlotNbt(nbt: Option<Nbt.Tag>): (r: Nbt.Tag)
    ensures nbt.Some? ==> r == nbt.value
    ensures nbt.None? ==> r == Nbt.TCompound([])
  {
    match nbt
    case None => Nbt.TCompound([])
    case Some(t) => t
  }

  /** The NBT blob of a slot, under an empty root name. */
  function NbtBytes(nbt: Option<Nbt.Tag>): (r: seq<byte>)
    ensures |r| >= 3
    ensures nbt.None? ==> r == Nbt.EmptyCompound() == [10, 0, 0, 0]
  {
    var t := SlotNbt(nbt);
    assert |Nbt.TagHeader(Nbt.TypeOf(t), [])| == 3;
    Nbt.Marshal([], t)
  }

  /** `Slot.Encode` as written: the item id as a short, and for a non-empty
    * slot the count byte, the meta as a short and the NBT blob. */
  function SlotDataBytes(s: Slot): (r: seq<byte>)
    ensures |r| >= 2 && r[..2] == BigEndian(s.itemId, 2)
    ensures |r| == 2 <==> s.itemId == EmptyItem
  {
    BigEndian(s.itemId, 2)
      + if s.itemId == EmptyItem then [] else [s.itemCount] + BigEndian(s.itemMeta, 2) + NbtBytes(s.nbt)
  }

  /** An empty slot is the two bytes FF FF, whatever its other fields. */
  lemma EmptySlotBytes(s: Slot)
    requires s.itemId == EmptyItem
    ensures SlotDataBytes(s) == [0xFF, 0xFF]
  {
    BigEndianMinusOne();
  }

  lemma BigEndianMinusOne()
    ensures BigEndian(-1, 2) == [0xFF, 0xFF]
  {
    assert BigEndian(-1, 1) == [0xFF];
  }

  /** A fake slot encodes its id and meta, the count 69 and the empty
    * compound, so slots with the same id and meta fake alike on the wire. */
  lemma FakeSlotBytes(s: Slot)
    requires s.itemId != EmptyItem
    ensures SlotDataBytes(CreateFake(s))
         == BigEndian(s.itemId, 2) + [69] + BigEndian(s.itemMeta, 2) + [10, 0, 0, 0]
  {
    var f := CreateFake(s);
    assert NbtBytes(f.nbt) == [10, 0, 0, 0];
  }

  method EncodeSlot(s: Slot, w: Writer)
    modifies w
    ensures w.data == old(w.data) + SlotDataBytes(s)
  {
    ghost var d0 := w.data;
    w.WriteShort(s.itemId);
    if s.itemId != EmptyItem {
      ghost var d1 := w.data;
      w.WriteByte(s.itemCount);
      w.WriteShort(s.itemMeta);
      w.WriteBytes(NbtBytes(s.nbt));
      assert w.data == d1 + ([s.itemCount] + BigEndian(s.itemMeta, 2) + NbtBytes(s.nbt));
      Append3(d0, BigEndian(s.itemId, 2), [s.itemCount] + BigEndian(s.itemMeta, 2) + NbtBytes(s.nbt));
    } else {
      assert SlotDataBytes(s) == BigEndian(s.itemId, 2) + [];
    }
  }

  /** A tree the NBT decoder reads back: well formed, and with no list of
    * lists, which `marshal` as written does not frame. */
  predicate Readable(nbt: Option<Nbt.Tag>)
  {
    nbt.Some? ==> Nbt.WellFormed(nbt.value) && Nbt.NoListInList(nbt.value)
  }

  /** The NBT blob, wherever it sits, decodes back to the slot's tree. */
  lemma NbtReadsBack(data: seq<byte>, off: nat, nbt: Option<Nbt.Tag>)
    requires Readable(nbt) && At(data, off, NbtBytes(nbt))
    ensures Nbt.Decode(data[off..]) == Ok((([], SlotNbt(nbt)), |NbtBytes(nbt)| as nat))
  {
    var t := SlotNbt(nbt);
    if nbt.None? {
      assert Nbt.WellFormed(t) && Nbt.NoListInList(t);
    }
    Nbt.MarshalIsNamedBytes([], t);
    var rest := data[off + |NbtBytes(nbt)|..];
    assert data[off..] == Nbt.NamedBytes([], t) + rest;
    NbtLaws.DecodeRoundTrip([], t, rest);
  }

  /** Read with the pre-1.13 layout, the bytes of `Slot.Encode` give back
    * the id, and for a non-empty slot the count, the meta and the NBT. */
  lemma SlotReadsBack(data: seq<byte>, off: nat, s: Slot, end: nat)
    requires Readable(s.nbt)
    requires At(data, off, SlotDataBytes(s)) && end == off + |SlotDataBytes(s)|
    ensures SignedAt(data, off, 2) == Ok((s.itemId as int, off + 2))
    ensures s.itemId == EmptyItem ==> end == off + 2
    ensures s.itemId != EmptyItem ==>
      ByteAt(data, off + 2) == Ok((s.itemCount, off + 3)) &&
      SignedAt(data, off + 3, 2) == Ok((s.itemMeta as int, off + 5)) &&
      Nbt.Decode(data[off + 5..]) == Ok((([], SlotNbt(s.nbt)), (end - (off + 5)) as nat))
  {
    var b := SlotDataBytes(s);
    assert At(data, off, BigEndian(s.itemId, 2)) by {
      assert data[off..off + 2] == b[..2];
    }
    ShortRoundTrip(data, off, s.itemId, off + 2);
    if s.itemId != EmptyItem {
      PresentReadsBack(data, off, s, end);
    }
  }

  /** The count, the metadata and the NBT of a non-empty slot read back. */
  lemma PresentReadsBack(data: seq<byte>, off: nat, s: Slot, end: nat)
    requires Readable(s.nbt) && s.itemId != EmptyItem
    requires At(data, off, SlotDataBytes(s)) && end == off + |SlotDataBytes(s)|
    ensures ByteAt(data, off + 2) == Ok((s.itemCount, off + 3))
    ensures SignedAt(data, off + 3, 2) == Ok((s.itemMeta as int, off + 5))
    ensures Nbt.Decode(data[off + 5..]) == Ok((([], SlotNbt(s.nbt)), (end - (off + 5)) as nat))
  {
    var tail := [s.itemCount] + BigEndian(s.itemMeta, 2) + NbtBytes(s.nbt);
    Append3(BigEndian(s.itemId, 2), [s.itemCount] + BigEndian(s.itemMeta, 2), NbtBytes(s.nbt));
    AtSplitAt(data, off, BigEndian(s.itemId, 2), tail, off + 2);
    AtSplit3(data, off + 2, [s.itemCount], BigEndian(s.itemMeta, 2), NbtBytes(s.nbt), off + 3, off + 5);
    ByteRoundTrip(data, off + 2, s.itemCount);
    ShortRoundTrip(data, off + 3, s.itemMeta, off + 5);
    NbtReadsBack(data, off + 5, s.nbt);
  }

  /** The slot layout protocol 578 expects: a presence flag, then for a
    * non-empty slot the item id as a varint, the count and the NBT blob. */
  function SlotDataBytesFixed(s: Slot): (r: seq<byte>)
    requires s.itemId >= EmptyItem
    ensures |r| >= 1 && r[0] == if s.itemId == EmptyItem then 0 else 1
    ensures |r| == 1 <==> s.itemId == EmptyItem
  {
    if s.itemId == EmptyItem then BooleanBytes(false)
    else BooleanBytes(true) + VarintBytes(s.itemId) + [s.itemCount] + NbtBytes(s.nbt)
  }

  method EncodeSlotFixed(s: Slot, w: Writer)
    requires s.itemId >= EmptyItem
    modifies w
    ensures w.data == old(w.data) + SlotDataBytesFixed(s)
  {
    if s.itemId == EmptyItem {
      w.WriteBoolean(false);
    } else {
      ghost var d0 := w.data;
      w.WriteBoolean(true);
      w.WriteVarint(s.itemId);
      ghost var d2 := w.data;
      w.WriteByte(s.itemCount);
      w.WriteBytes(NbtBytes(s.nbt));
      Append3(d2, [s.itemCount], NbtBytes(s.nbt));
      Append3(d0, BooleanBytes(true) + VarintBytes(s.itemId), [s.itemCount] + NbtBytes(s.nbt));
      assert SlotDataBytesFixed(s)
          == BooleanBytes(true) + VarintBytes(s.itemId) + ([s.itemCount] + NbtBytes(s.nbt));
    }
  }

  /** Read the way the Creative Inventory Action handler reads a slot, the
    * fixed layout gives back presence, id, count and NBT. */
  lemma SlotFixedReadsBack(data: seq<byte>, off: nat, s: Slot, idEnd: nat, end: nat)
    requires s.itemId >= EmptyItem && Readable(s.nbt)
    requires At(data, off, SlotDataBytesFixed(s)) && end == off + |SlotDataBytesFixed(s)|
    requires s.itemId != EmptyItem ==> idEnd == off + 1 + |VarintBytes(s.itemId)|
    ensures BooleanAt(data, off) == Ok((s.itemId != EmptyItem, off + 1))
    ensures s.itemId == EmptyItem ==> end == off + 1
    ensures s.itemId != EmptyItem ==>
      VarintAt(data, off + 1) == Ok((s.itemId as int, idEnd)) &&
      ByteAt(data, idEnd) == Ok((s.itemCount, idEnd + 1)) &&
      Nbt.Decode(data[idEnd + 1..]) == Ok((([], SlotNbt(s.nbt)), (end - (idEnd + 1)) as nat))
  {
    var b := SlotDataBytesFixed(s);
    assert data[off] == b[0];
    if s.itemId != EmptyItem {
      PresentFixedReadsBack(data, off, s, idEnd, end);
    }
  }

  /** The non-empty case: the id, the count and the NBT after the flag. */
  lemma PresentFixedReadsBack(data: seq<byte>, off: nat, s: Slot, idEnd: nat, end: nat)
    requires s.itemId > EmptyItem && Readable(s.nbt)
    requires At(data, off, SlotDataBytesFixed(s)) && end == off + |SlotDataBytesFixed(s)|
    requires idEnd == off + 1 + |VarintBytes(s.itemId)|
    ensures VarintAt(data, off + 1) == Ok((s.itemId as int, idEnd))
    ensures ByteAt(data, idEnd) == Ok((s.itemCount, idEnd + 1))
    ensures Nbt.Decode(data[idEnd + 1..]) == Ok((([], SlotNbt(s.nbt)), (end - (idEnd + 1)) as nat))
  {
    PresentFixedLayout(data, off, s, idEnd, end);
    VarintReadsBack(data, off + 1, s.itemId, idEnd);
    ByteRoundTrip(data, idEnd, s.itemCount);
    PresentNbtReadsBack(data, off, s, idEnd, end);
  }

  /** The NBT blob of a non-empty slot in the fixed layout decodes back. */
  lemma PresentNbtReadsBack(data: seq<byte>, off: nat, s: Slot, idEnd: nat, end: nat)
    requires s.itemId > EmptyItem && Readable(s.nbt)
    requires At(data, off, SlotDataBytesFixed(s)) && end == off + |SlotDataBytesFixed(s)|
    requires idEnd == off + 1 + |VarintBytes(s.itemId)|
    ensures idEnd + 1 <= end <= |data|
    ensures Nbt.Decode(data[idEnd + 1..]) == Ok((([], SlotNbt(s.nbt)), (end - (idEnd + 1)) as nat))
  {
    PresentFixedLayout(data, off, s, idEnd, end);
    NbtReadsBack(data, idEnd + 1, s.nbt);
  }

  /** Where the pieces of a non-empty slot sit in the fixed layout. */
  lemma PresentFixedLayout(data: seq<byte>, off: nat, s: Slot, idEnd: nat, end: nat)
    requires s.itemId > EmptyItem
    requires At(data, off, SlotDataBytesFixed(s)) && end == off + |SlotDataBytesFixed(s)|
    requires idEnd == off + 1 + |VarintBytes(s.itemId)|
    ensures At(data, off + 1, VarintBytes(s.itemId)) && At(data, idEnd, [s.itemCount])
    ensures At(data, idEnd + 1, NbtBytes(s.nbt)) && end == idEnd + 1 + |NbtBytes(s.nbt)|
  {
    var head, nb := BooleanBytes(true) + VarintBytes(s.itemId), NbtBytes(s.nbt);
    assert SlotDataBytesFixed(s) == head + [s.itemCount] + nb;
    AtSplit3(data, off, head, [s.itemCount], nb, idEnd, idEnd + 1);
    AtSplitAt(data, off, BooleanBytes(true), VarintBytes(s.itemId), off + 1);
  }

  /** The layout as written, read the way protocol 578 reads a slot: one
    * stone block reads as an empty slot, and the empty slot is refused. */
  lemma SlotLayoutMisread()
    ensures var stone := Slot(1, 1, 0, None);
      SlotDataBytes(stone) == [0, 1, 1, 0, 0, 10, 0, 0, 0] &&
      BooleanAt(SlotDataBytes(stone), 0) == Ok((false, 1)) &&
      SlotDataBytesFixed(stone) == [1, 1, 1, 10, 0, 0, 0]
    ensures BooleanAt(SlotDataBytes(Slot(EmptyItem, 0, 0, None)), 0) == Err(InvalidBoolean)
  {
    StoneBytes();
    StoneBytesFixed();
    EmptySlotBytes(Slot(EmptyItem, 0, 0, None));
  }

  /** One stone block in the layout as written. */
  lemma StoneBytes()
    ensures SlotDataBytes(Slot(1, 1, 0, None)) == [0, 1, 1, 0, 0, 10, 0, 0, 0]
  {
    var stone := Slot(1, 1, 0, None);
    assert BigEndian(1, 2) == [0, 1] by { assert BigEndian(1, 1) == [1]; }
    assert BigEndian(0, 2) == [0, 0] by { assert BigEndian(0, 1) == [0]; }
    assert NbtBytes(stone.nbt) == [10, 0, 0, 0];
  }

  /** One stone block in the layout protocol 578 expects. */
  lemma StoneBytesFixed()
    ensures SlotDataBytesFixed(Slot(1, 1, 0, None)) == [1, 1, 1, 10, 0, 0, 0]
  {
    assert NbtBytes(None) == [10, 0, 0, 0];
    assert VarintBytes(1) == [1];
  }

  datatype SetSlot = SetSlot(windowId: byte, slot: int16, slotData: Slot)

  const SetSlotId: int32 := 0x16

  function SetSlotBytes(p: SetSlot): (r: seq<byte>)
  {
    VarintBytes(SetSlotId) + [p.windowId] + BigEndian(p.slot, 2) + SlotDataBytes(p.slotData)
  }

  /** `SetSlot.Encode`: the packet id, the window, the slot number, then the
    * slot as `Slot.Encode` writes it. */
  method EncodeSetSlot(p: SetSlot, w: Writer)
    modifies w
    ensures w.data == old(w.data) + SetSlotBytes(p)
  {
    ghost var d0 := w.data;
    w.WriteVarint(SetSlotId);
    w.WriteByte(p.windowId);
    w.WriteShort(p.slot);
    ghost var d3 := w.data;
    EncodeSlot(p.slotData, w);
    assert d3 == d0 + (VarintBytes(SetSlotId) + [p.windowId] + BigEndian(p.slot, 2));
    Append3(d0, VarintBytes(SetSlotId) + [p.windowId] + BigEndian(p.slot, 2), SlotDataBytes(p.slotData));
  }

  /** Set Slot reads back as the packet id, the window, the slot number and
    * the slot's own bytes, which `SlotReadsBack` reads further. */
  lemma SetSlotReadsBack(data: seq<byte>, off: nat, p: SetSlot, end: nat)
    requires At(data, off, SetSlotBytes(p)) && end == off + |SetSlotBytes(p)|
    ensures VarintAt(data, off) == Ok((0x16, (off + 1) as nat))
    ensures ByteAt(data, off + 1) == Ok((p.windowId, off + 2))
    ensures SignedAt(data, off + 2, 2) == Ok((p.slot as int, off + 4))
    ensures At(data, off + 4, SlotDataBytes(p.slotData)) && end == off + 4 + |SlotDataBytes(p.slotData)|
  {
    assert VarintBytes(SetSlotId) == [0x16];
    AtSplit3(data, off, VarintBytes(SetSlotId) + [p.windowId], BigEndian(p.slot, 2), SlotDataBytes(p.slotData), off + 2, off + 4);
    AtSplitAt(data, off, VarintBytes(SetSlotId), [p.windowId], off + 1);
    VarintReadsBack(data, off, SetSlotId, off + 1);
    ByteRoundTrip(data, off + 1, p.windowId);
    ShortRoundTrip(data, off + 2, p.slot, off + 4);
  }
}
