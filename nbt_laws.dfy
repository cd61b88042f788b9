/** Laws of the NBT framing: decoding inverts the encoding on well-formed
  * trees, every successful decode consumes exactly an encoding, `rawRead`
  * skips exactly what `unmarshal` reads, and the encoder as written loses
  * the header of a list nested in a list. */
module NbtLaws {
  import opened Bytes
  import opened Wrappers
  import opened Nbt
  import Readers

  predicate At(data: seq<byte>, off: nat, s: seq<byte>)
  {
    Readers.At(data, off, s)
  }

  lemma AtSplit(data: seq<byte>, off: nat, a: seq<byte>, b: seq<byte>)
    requires At(data, off, a + b)
    ensures At(data, off, a) && At(data, off + |a|, b)
  {
    Readers.AtSplit(data, off, a, b);
  }

  lemma IntRoundTrip(data: seq<byte>, off: nat, v: int, k: nat)
    requires 0 < k && InSigned(v, k) && At(data, off, BigEndian(v, k))
    ensures IntAt(data, off, k) == Ok((v, off + k))
  {
    Bytes.SignedRoundTrip(v, k);
  }

  /** The unsigned pattern of a float or double reads back as itself. */
  lemma PatternRoundTrip(data: seq<byte>, off: nat, v: int, k: nat)
    requires 0 < k && 0 <= v < Pow256(k) && At(data, off, BigEndian(v, k))
    ensures IntAt(data, off, k).Ok?
    ensures IntAt(data, off, k).value.1 == off + k
    ensures IntAt(data, off, k).value.0 % Pow256(k) == v
  {
    var s := IntAt(data, off, k).value.0;
    IntAtEncodes(data, off, k);
    assert BigEndian(s, k) == BigEndian(v, k);
    UnsignedOfBigEndian(s, k);
    UnsignedOfBigEndian(v, k);
    DivModUnique(v, Pow256(k), 0, v);
  }

  lemma StringRoundTrip(data: seq<byte>, off: nat, s: seq<byte>)
    requires |s| < 0x8000 && At(data, off, NameBytes(s))
    ensures StringAt(data, off) == Ok((s, off + 2 + |s|))
  {
    AtSplit(data, off, BigEndian(|s|, 2), s);
    IntRoundTrip(data, off, |s|, 2);
  }

  lemma TagRoundTrip(data: seq<byte>, off: nat, t: byte, name: seq<byte>)
    requires t != TagEnd && |name| < 0x8000 && At(data, off, TagHeader(t, name))
    ensures TagAt(data, off) == Ok(((t, name), off + 3 + |name|))
  {
    AtSplit(data, off, [t], NameBytes(name));
    StringRoundTrip(data, off + 1, name);
  }

  lemma NumbersRoundTrip(data: seq<byte>, off: nat, xs: seq<int>, k: nat)
    requires 0 < k && forall i :: 0 <= i < |xs| ==> InSigned(xs[i], k)
    requires At(data, off, NumbersBytes(xs, k))
    ensures NumbersAt(data, off, |xs|, k) == Ok((xs, off + |NumbersBytes(xs, k)|))
  {
    AllInSignedOf(xs, k);
    NumbersOfSpan(data, off, off + |NumbersBytes(xs, k)|, xs, k);
  }

  /** Every number fits `k` signed bytes. */
  predicate AllInSigned(xs: seq<int>, k: nat)
  {
    xs == [] || (InSigned(xs[0], k) && AllInSigned(xs[1..], k))
  }

  lemma {:induction false} AllInSignedOf(xs: seq<int>, k: nat)
    requires forall i :: 0 <= i < |xs| ==> InSigned(xs[i], k)
    ensures AllInSigned(xs, k)
  {
    if xs != [] {
      AllInSignedOf(xs[1..], k);
    }
  }

  lemma {:induction false} NumbersOfSpan(data: seq<byte>, off: nat, end: nat, xs: seq<int>, k: nat)
    requires 0 < k && AllInSigned(xs, k) && Spans(data, off, end, NumbersBytes(xs, k))
    ensures NumbersAt(data, off, |xs|, k) == Ok((xs, end))
    decreases xs
  {
    if xs == [] {
      SpansAt(data, off, end, NumbersBytes(xs, k));
    } else {
      NumbersCons(xs, k);
      var mid := SpansSplit(data, off, end, BigEndian(xs[0], k), NumbersBytes(xs[1..], k));
      SpansAt(data, off, mid, BigEndian(xs[0], k));
      IntRoundTrip(data, off, xs[0], k);
      NumbersOfSpan(data, mid, end, xs[1..], k);
      NumbersStep(data, off, |xs|, k, xs[0], xs[1..], end);
      ConsJoin(xs);
    }
  }

  lemma NumbersCons(xs: seq<int>, k: nat)
    requires xs != []
    ensures NumbersBytes(xs, k) == BigEndian(xs[0], k) + NumbersBytes(xs[1..], k)
  {
  }

  lemma ConsJoin<T>(xs: seq<T>)
    requires xs != []
    ensures [xs[0]] + xs[1..] == xs
  {
  }

  /** One step of `NumbersAt`. */
  lemma NumbersStep(data: seq<byte>, off: nat, n: nat, k: nat, v: int, rest: seq<int>, end: nat)
    requires 0 < k && 0 < n && off <= |data|
    requires IntAt(data, off, k) == Ok((v, off + k))
    requires NumbersAt(data, off + k, n - 1, k) == Ok((rest, end))
    ensures NumbersAt(data, off, n, k) == Ok(([v] + rest, end))
  {
  }

  /** One step of `ItemsAt`. */
  lemma ItemsStep(data: seq<byte>, off: nat, t: byte, n: nat, v: Tag, next: nat, rest: seq<Tag>, end: nat)
    requires 0 < n && off <= next <= |data|
    requires ValueAt(data, off, t) == Ok((v, next))
    requires ItemsAt(data, next, t, n - 1) == Ok((rest, end))
    ensures ItemsAt(data, off, t, n) == Ok(([v] + rest, end))
  {
  }

  /** One step of `EntriesAt`. */
  lemma EntriesStep(data: seq<byte>, off: nat, t: byte, name: seq<byte>, next: nat, v: Tag, after: nat,
                    rest: seq<Entry>, end: nat)
    requires off <= |data| && t != TagEnd && next <= after <= |data|
    requires TagAt(data, off) == Ok(((t, name), next))
    requires ValueAt(data, next, t) == Ok((v, after))
    requires EntriesAt(data, after) == Ok((rest, end))
    ensures EntriesAt(data, off) == Ok(([Entry(name, v)] + rest, end))
  {
  }

  /** `ListAt` once its parts are known. */
  lemma ListStep(data: seq<byte>, off: nat, et: byte, n: nat, items: seq<Tag>, end: nat)
    requires off + 5 <= |data| && data[off] == et
    requires IntAt(data, off + 1, 4) == Ok((n, off + 5))
    requires ItemsAt(data, off + 5, et, n) == Ok((items, end))
    ensures ValueAt(data, off, TagList) == Ok((TList(et, items), end))
  {
  }

  /** `data[off..end]` holds exactly `s`. */
  predicate Spans(data: seq<byte>, off: nat, end: nat, s: seq<byte>)
  {
    off <= end <= |data| && data[off..end] == s
  }

  lemma SpansAt(data: seq<byte>, off: nat, end: nat, s: seq<byte>)
    requires Spans(data, off, end, s)
    ensures At(data, off, s) && end == off + |s|
  {
  }

  /** A span holding `a + b` splits where `a` ends. */
  lemma SpansSplit(data: seq<byte>, off: nat, end: nat, a: seq<byte>, b: seq<byte>) returns (mid: nat)
    requires Spans(data, off, end, a + b)
    ensures off <= mid <= end && Spans(data, off, mid, a) && Spans(data, mid, end, b)
  {
    mid := off + |a|;
    assert data[off..mid] == data[off..end][..|a|];
    assert (a + b)[..|a|] == a;
    assert data[mid..end] == data[off..end][|a|..];
    assert (a + b)[|a|..] == b;
  }

  /** Decoding a well-formed tree's payload gives the tree back and stops
    * right after the payload. */
  lemma {:induction false} DecodeOfPayload(data: seq<byte>, off: nat, end: nat, t: Tag)
    requires WellFormed(t) && Spans(data, off, end, Payload(t))
    ensures ValueAt(data, off, TypeOf(t)) == Ok((t, end))
    decreases t, 3
  {
    match t
    case TList(et, items) => DecodeOfList(data, off, end, et, items);
    case TCompound(es) => DecodeOfCompound(data, off, end, es);
    case _ => LeafOfPayload(data, off, end, t);
  }

  lemma {:induction false} DecodeOfList(data: seq<byte>, off: nat, end: nat, et: byte, items: seq<Tag>)
    requires WellFormed(TList(et, items)) && Spans(data, off, end, Payload(TList(et, items)))
    ensures ValueAt(data, off, TagList) == Ok((TList(et, items), end))
    decreases items, 3
  {
    ListHead(data, off, end, et, items);
    DecodeOfItems(data, off + 5, end, et, items);
    ListStep(data, off, et, |items|, items, end);
  }

  /** The element type, the length and the items of an encoded list. */
  lemma ListHead(data: seq<byte>, off: nat, end: nat, et: byte, items: seq<Tag>)
    requires WellFormed(TList(et, items)) && Spans(data, off, end, Payload(TList(et, items)))
    ensures off + 5 <= end && data[off] == et && ItemsWellFormed(items, et)
    ensures IntAt(data, off + 1, 4) == Ok((|items|, off + 5))
    ensures Spans(data, off + 5, end, ItemsBytes(items))
  {
    var h := [et] + BigEndian(|items|, 4);
    assert Payload(TList(et, items)) == h + ItemsBytes(items);
    var mid := SpansSplit(data, off, end, h, ItemsBytes(items));
    SpansAt(data, off, mid, h);
    AtSplit(data, off, [et], BigEndian(|items|, 4));
    assert data[off] == data[off..off + 1][0];
    IntRoundTrip(data, off + 1, |items|, 4);
  }

  lemma {:induction false} DecodeOfCompound(data: seq<byte>, off: nat, end: nat, es: seq<Entry>)
    requires WellFormed(TCompound(es)) && Spans(data, off, end, Payload(TCompound(es)))
    ensures ValueAt(data, off, TagCompound) == Ok((TCompound(es), end))
    decreases es, 3
  {
    assert Payload(TCompound(es)) == EntriesBytes(es) + [TagEnd];
    DecodeOfEntries(data, off, end, es);
    CompoundStep(data, off, es, end);
  }

  lemma LeafOfPayload(data: seq<byte>, off: nat, end: nat, t: Tag)
    requires !t.TList? && !t.TCompound?
    requires WellFormed(t) && Spans(data, off, end, Payload(t))
    ensures ValueAt(data, off, TypeOf(t)) == Ok((t, end))
  {
    match t
    case TByte(b) => ByteOfPayload(data, off, end, b);
    case TShort(v) => IntegerOfPayload(data, off, end, TagShort, v, 2);
    case TInt(v) => IntegerOfPayload(data, off, end, TagInt, v, 4);
    case TLong(v) => IntegerOfPayload(data, off, end, TagLong, v, 8);
    case TFloat(v) => PatternOfPayload(data, off, end, TagFloat, v, 4);
    case TDouble(v) => PatternOfPayload(data, off, end, TagDouble, v, 8);
    case TString(s) => StringOfPayload(data, off, end, s);
    case TByteArray(d) => ByteArrayOfPayload(data, off, end, d);
    case TIntArray(xs) => NumbersOfPayload(data, off, end, TagIntArray, xs, 4);
    case TLongArray(xs) => NumbersOfPayload(data, off, end, TagLongArray, xs, 8);
  }

  lemma ByteOfPayload(data: seq<byte>, off: nat, end: nat, b: byte)
    requires Spans(data, off, end, [b])
    ensures ValueAt(data, off, TagByte) == Ok((TByte(b), end))
  {
    SpansAt(data, off, end, [b]);
    assert data[off] == data[off..end][0];
    ScalarStep(data, off, TagByte);
  }

  lemma IntegerOfPayload(data: seq<byte>, off: nat, end: nat, t: byte, v: int, k: nat)
    requires (t == TagShort && k == 2) || (t == TagInt && k == 4) || (t == TagLong && k == 8)
    requires InSigned(v, k) && Spans(data, off, end, BigEndian(v, k))
    ensures ValueAt(data, off, t) == Ok((if t == TagShort then TShort(v) else if t == TagInt then TInt(v) else TLong(v), end))
  {
    SpansAt(data, off, end, BigEndian(v, k));
    ScalarStep(data, off, t);
    IntegerScalar(data, off, end, t, v, k);
  }

  lemma PatternOfPayload(data: seq<byte>, off: nat, end: nat, t: byte, v: int, k: nat)
    requires (t == TagFloat && k == 4) || (t == TagDouble && k == 8)
    requires 0 <= v < Pow256(k) && Spans(data, off, end, BigEndian(v, k))
    ensures ValueAt(data, off, t) == Ok((if t == TagFloat then TFloat(v) else TDouble(v), end))
  {
    SpansAt(data, off, end, BigEndian(v, k));
    ScalarStep(data, off, t);
    PatternScalar(data, off, end, t, v, k);
  }

  lemma StringOfPayload(data: seq<byte>, off: nat, end: nat, s: seq<byte>)
    requires |s| < 0x8000 && Spans(data, off, end, NameBytes(s))
    ensures ValueAt(data, off, TagString) == Ok((TString(s), end))
  {
    SpansAt(data, off, end, NameBytes(s));
    StringRoundTrip(data, off, s);
    ScalarStep(data, off, TagString);
  }

  /** `unmarshal` of an array tag is `ArrayAt`. */
  lemma ArrayStep(data: seq<byte>, off: nat, t: byte)
    requires off <= |data| && IsArrayTag(t)
    ensures ValueAt(data, off, t) == ArrayAt(data, off, t)
  {
  }

  /** `unmarshal` of a number or string is `ScalarAt`. */
  lemma ScalarStep(data: seq<byte>, off: nat, t: byte)
    requires off <= |data| && (TagByte <= t <= TagDouble || t == TagString)
    ensures ValueAt(data, off, t) == ScalarAt(data, off, t)
  {
  }

  /** `unmarshal` of a compound once its members are read. */
  lemma CompoundStep(data: seq<byte>, off: nat, es: seq<Entry>, end: nat)
    requires off <= |data| && EntriesAt(data, off) == Ok((es, end))
    ensures ValueAt(data, off, TagCompound) == Ok((TCompound(es), end))
  {
  }

  lemma IntegerScalar(data: seq<byte>, off: nat, end: nat, t: byte, v: int, k: nat)
    requires (t == TagShort && k == 2) || (t == TagInt && k == 4) || (t == TagLong && k == 8)
    requires InSigned(v, k) && At(data, off, BigEndian(v, k)) && end == off + k
    ensures ScalarAt(data, off, t) == Ok((if t == TagShort then TShort(v) else if t == TagInt then TInt(v) else TLong(v), end))
  {
    IntRoundTrip(data, off, v, k);
  }

  lemma PatternScalar(data: seq<byte>, off: nat, end: nat, t: byte, v: int, k: nat)
    requires (t == TagFloat && k == 4) || (t == TagDouble && k == 8)
    requires 0 <= v < Pow256(k) && At(data, off, BigEndian(v, k)) && end == off + k
    ensures ScalarAt(data, off, t) == Ok((if t == TagFloat then TFloat(v) else TDouble(v), end))
  {
    PatternRoundTrip(data, off, v, k);
  }

  lemma ByteArrayOfPayload(data: seq<byte>, off: nat, end: nat, d: seq<byte>)
    requires |d| < 0x8000_0000 && Spans(data, off, end, BigEndian(|d|, 4) + d)
    ensures ValueAt(data, off, TagByteArray) == Ok((TByteArray(d), end))
  {
    SpansAt(data, off, end, BigEndian(|d|, 4) + d);
    ByteArrayParts(data, off, d);
    ByteArrayStep(data, off, d, end);
    ArrayStep(data, off, TagByteArray);
  }

  lemma ByteArrayParts(data: seq<byte>, off: nat, d: seq<byte>)
    requires |d| < 0x8000_0000 && At(data, off, BigEndian(|d|, 4) + d)
    ensures IntAt(data, off, 4) == Ok((|d|, off + 4))
    ensures At(data, off + 4, d)
  {
    AtSplit(data, off, BigEndian(|d|, 4), d);
    IntRoundTrip(data, off, |d|, 4);
  }

  lemma ByteArrayStep(data: seq<byte>, off: nat, d: seq<byte>, end: nat)
    requires off + 4 <= |data| && IntAt(data, off, 4) == Ok((|d|, off + 4))
    requires At(data, off + 4, d) && end == off + 4 + |d|
    ensures ArrayAt(data, off, TagByteArray) == Ok((TByteArray(d), end))
  {
  }

  lemma NumbersOfPayload(data: seq<byte>, off: nat, end: nat, t: byte, xs: seq<int>, k: nat)
    requires (t == TagIntArray && k == 4) || (t == TagLongArray && k == 8)
    requires |xs| < 0x8000_0000 && forall i :: 0 <= i < |xs| ==> InSigned(xs[i], k)
    requires Spans(data, off, end, BigEndian(|xs|, 4) + NumbersBytes(xs, k))
    ensures ValueAt(data, off, t) == Ok((if t == TagIntArray then TIntArray(xs) else TLongArray(xs), end))
  {
    NumbersArrayParts(data, off, end, xs, k);
    NumbersArrayStep(data, off, t, xs, k, end);
    ArrayStep(data, off, t);
  }

  lemma NumbersArrayParts(data: seq<byte>, off: nat, end: nat, xs: seq<int>, k: nat)
    requires 0 < k && |xs| < 0x8000_0000 && forall i :: 0 <= i < |xs| ==> InSigned(xs[i], k)
    requires Spans(data, off, end, BigEndian(|xs|, 4) + NumbersBytes(xs, k))
    ensures off + 4 <= |data| && IntAt(data, off, 4) == Ok((|xs|, off + 4))
    ensures NumbersAt(data, off + 4, |xs|, k) == Ok((xs, end))
  {
    var mid := SpansSplit(data, off, end, BigEndian(|xs|, 4), NumbersBytes(xs, k));
    SpansAt(data, off, mid, BigEndian(|xs|, 4));
    IntRoundTrip(data, off, |xs|, 4);
    AllInSignedOf(xs, k);
    NumbersOfSpan(data, mid, end, xs, k);
  }

  lemma NumbersArrayStep(data: seq<byte>, off: nat, t: byte, xs: seq<int>, k: nat, end: nat)
    requires (t == TagIntArray && k == 4) || (t == TagLongArray && k == 8)
    requires off + 4 <= |data| && IntAt(data, off, 4) == Ok((|xs|, off + 4))
    requires NumbersAt(data, off + 4, |xs|, k) == Ok((xs, end))
    ensures ArrayAt(data, off, t) == Ok((if t == TagIntArray then TIntArray(xs) else TLongArray(xs), end))
  {
  }

  lemma {:induction false} DecodeOfItems(data: seq<byte>, off: nat, end: nat, et: byte, items: seq<Tag>)
    requires ItemsWellFormed(items, et) && Spans(data, off, end, ItemsBytes(items))
    ensures ItemsAt(data, off, et, |items|) == Ok((items, end))
    decreases items, 2
  {
    if items != [] {
      DecodeOfCons(data, off, end, et, items, items[0], items[1..]);
    }
  }

  lemma {:induction false} DecodeOfCons(data: seq<byte>, off: nat, end: nat, et: byte, items: seq<Tag>,
                                        v: Tag, rest: seq<Tag>)
    requires items != [] && v == items[0] && rest == items[1..]
    requires ItemsWellFormed(items, et) && Spans(data, off, end, ItemsBytes(items))
    ensures ItemsAt(data, off, et, |items|) == Ok((items, end))
    decreases items, 1
  {
    ConsParts(et, items, v, rest);
    ConsBytes(items, v, rest);
    var next := SpansSplit(data, off, end, Payload(v), ItemsBytes(rest));
    DecodeOfPayload(data, off, next, v);
    DecodeOfItems(data, next, end, et, rest);
    ConsStep(data, off, et, items, v, rest, next, end);
  }

  lemma ConsParts(et: byte, items: seq<Tag>, v: Tag, rest: seq<Tag>)
    requires items != [] && v == items[0] && rest == items[1..]
    requires ItemsWellFormed(items, et)
    ensures TypeOf(v) == et && WellFormed(v) && ItemsWellFormed(rest, et)
  {
  }

  /** The encoding of a list body is the first item's payload followed by
    * the rest. */
  lemma ConsBytes(items: seq<Tag>, v: Tag, rest: seq<Tag>)
    requires items != [] && v == items[0] && rest == items[1..]
    ensures ItemsBytes(items) == Payload(v) + ItemsBytes(rest)
  {
  }

  /** `ItemsAt` reads a value and then the rest. */
  lemma ConsStep(data: seq<byte>, off: nat, et: byte, items: seq<Tag>, v: Tag, rest: seq<Tag>, next: nat, end: nat)
    requires items != [] && v == items[0] && rest == items[1..] && off <= next <= |data|
    requires ValueAt(data, off, et) == Ok((v, next))
    requires ItemsAt(data, next, et, |rest|) == Ok((rest, end))
    ensures ItemsAt(data, off, et, |items|) == Ok((items, end))
  {
    ConsJoin(items);
    ItemsStep(data, off, et, |items|, v, next, rest, end);
  }

  lemma {:induction false} DecodeOfEntries(data: seq<byte>, off: nat, end: nat, es: seq<Entry>)
    requires EntriesWellFormed(es) && Spans(data, off, end, EntriesBytes(es) + [TagEnd])
    ensures EntriesAt(data, off) == Ok((es, end))
    decreases es, 2
  {
    if es == [] {
      EntriesEnd(data, off, end);
    } else {
      DecodeOfEntry(data, off, end, es, es[0].name, es[0].value, es[1..]);
    }
  }

  /** A TAG_End byte ends a compound. */
  lemma EntriesEnd(data: seq<byte>, off: nat, end: nat)
    requires Spans(data, off, end, EntriesBytes([]) + [TagEnd])
    ensures EntriesAt(data, off) == Ok(([], end))
  {
    assert data[off] == data[off..end][0];
  }

  lemma {:induction false} DecodeOfEntry(data: seq<byte>, off: nat, end: nat, es: seq<Entry>, name: seq<byte>,
                                         v: Tag, rest: seq<Entry>)
    requires es != [] && es[0] == Entry(name, v) && rest == es[1..]
    requires EntriesWellFormed(es) && Spans(data, off, end, EntriesBytes(es) + [TagEnd])
    ensures EntriesAt(data, off) == Ok((es, end))
    decreases es, 1
  {
    var h := TagHeader(TypeOf(v), name);
    var r := EntriesBytes(rest) + [TagEnd];
    EntryParts(es, name, v, rest);
    var after := SpansSplit(data, off, end, h + Payload(v), r);
    var next := SpansSplit(data, off, after, h, Payload(v));
    HeaderAt(data, off, next, TypeOf(v), name);
    DecodeOfPayload(data, next, after, v);
    DecodeOfEntries(data, after, end, rest);
    EntryStep(data, off, es, name, v, rest, next, after, end);
  }

  lemma EntryParts(es: seq<Entry>, name: seq<byte>, v: Tag, rest: seq<Entry>)
    requires es != [] && es[0] == Entry(name, v) && rest == es[1..]
    requires EntriesWellFormed(es)
    ensures |name| < 0x8000 && WellFormed(v) && EntriesWellFormed(rest)
    ensures EntriesBytes(es) + [TagEnd] == TagHeader(TypeOf(v), name) + Payload(v) + (EntriesBytes(rest) + [TagEnd])
  {
  }

  /** A tag header read back. */
  lemma HeaderAt(data: seq<byte>, off: nat, next: nat, t: byte, name: seq<byte>)
    requires t != TagEnd && |name| < 0x8000 && Spans(data, off, next, TagHeader(t, name))
    ensures TagAt(data, off) == Ok(((t, name), next))
  {
    SpansAt(data, off, next, TagHeader(t, name));
    TagRoundTrip(data, off, t, name);
  }

  /** `EntriesAt` reads a named value and then the rest. */
  lemma EntryStep(data: seq<byte>, off: nat, es: seq<Entry>, name: seq<byte>, v: Tag, rest: seq<Entry>,
                  next: nat, after: nat, end: nat)
    requires es != [] && es[0] == Entry(name, v) && rest == es[1..]
    requires off <= |data| && next <= after <= |data|
    requires TagAt(data, off) == Ok(((TypeOf(v), name), next))
    requires ValueAt(data, next, TypeOf(v)) == Ok((v, after))
    requires EntriesAt(data, after) == Ok((rest, end))
    ensures EntriesAt(data, off) == Ok((es, end))
  {
    EntriesStep(data, off, TypeOf(v), name, next, v, after, rest, end);
    assert [Entry(name, v)] + rest == es;
  }


  /** Every tree the decoder returns is well formed, and the bytes it
    * consumed are exactly that tree's encoding. */
  lemma {:induction false} PayloadOfDecode(data: seq<byte>, off: nat, t: byte)
    requires off <= |data| && ValueAt(data, off, t).Ok?
    ensures var (v, end) := ValueAt(data, off, t).value;
      WellFormed(v) && data[off..end] == Payload(v)
    decreases |data| - off, 1
  {
    if TagByte <= t <= TagDouble || t == TagString {
      ScalarEncodes(data, off, t);
    } else if IsArrayTag(t) {
      ArrayEncodes(data, off, t);
    } else if t == TagList {
      var (n, start) := IntAt(data, off + 1, 4).value;
      IntAtEncodes(data, off + 1, 4);
      PayloadOfItems(data, start, data[off], n);
      var (items, end) := ItemsAt(data, start, data[off], n).value;
      ListEncodes(data, off, data[off], n, items, end);
    } else {
      var (es, end) := EntriesAt(data, off).value;
      PayloadOfEntries(data, off);
      assert ValueAt(data, off, t) == Ok((TCompound(es), end));
    }
  }

  /** A list read from its parts is well formed and encodes back to them. */
  lemma ListEncodes(data: seq<byte>, off: nat, et: byte, n: nat, items: seq<Tag>, end: nat)
    requires off + 5 <= end <= |data| && data[off] == et
    requires IntAt(data, off + 1, 4) == Ok((n, off + 5))
    requires BigEndian(n, 4) == data[off + 1..off + 5]
    requires ItemsAt(data, off + 5, et, n) == Ok((items, end))
    requires ItemsWellFormed(items, et)
    requires data[off + 5..end] == ItemsBytes(items)
    ensures ValueAt(data, off, TagList) == Ok((TList(et, items), end))
    ensures WellFormed(TList(et, items)) && data[off..end] == Payload(TList(et, items))
  {
    ListStep(data, off, et, n, items, end);
    Slices(data, off, off + 1, end);
    Slices(data, off + 1, off + 5, end);
    assert data[off..off + 1] == [et];
  }

  lemma ScalarEncodes(data: seq<byte>, off: nat, t: byte)
    requires off <= |data| && (TagByte <= t <= TagDouble || t == TagString)
    requires ScalarAt(data, off, t).Ok?
    ensures var (v, end) := ScalarAt(data, off, t).value;
      WellFormed(v) && data[off..end] == Payload(v)
  {
    if t == TagString {
      StringAtEncodes(data, off);
    } else if TagByte < t {
      var k := if t == TagShort then 2 else if t == TagInt || t == TagFloat then 4 else 8;
      var s := IntAt(data, off, k).value.0;
      IntAtEncodes(data, off, k);
      if t == TagFloat || t == TagDouble {
        BigEndianMod(s, k);
      }
    }
  }

  lemma ArrayEncodes(data: seq<byte>, off: nat, t: byte)
    requires off <= |data| && IsArrayTag(t) && ArrayAt(data, off, t).Ok?
    ensures var (v, end) := ArrayAt(data, off, t).value;
      WellFormed(v) && data[off..end] == Payload(v)
  {
    if t == TagByteArray {
      ByteArrayEncodes(data, off);
    } else {
      NumbersArrayEncodes(data, off, t, if t == TagIntArray then 4 else 8);
    }
  }

  lemma ByteArrayEncodes(data: seq<byte>, off: nat)
    requires off <= |data| && ArrayAt(data, off, TagByteArray).Ok?
    ensures var (v, end) := ArrayAt(data, off, TagByteArray).value;
      WellFormed(v) && data[off..end] == Payload(v)
  {
    IntAtEncodes(data, off, 4);
    Slices(data, off, off + 4, ArrayAt(data, off, TagByteArray).value.1);
  }

  lemma NumbersArrayEncodes(data: seq<byte>, off: nat, t: byte, k: nat)
    requires (t == TagIntArray && k == 4) || (t == TagLongArray && k == 8)
    requires off <= |data| && ArrayAt(data, off, t).Ok?
    ensures var (v, end) := ArrayAt(data, off, t).value;
      WellFormed(v) && data[off..end] == Payload(v)
  {
    var (n, next) := IntAt(data, off, 4).value;
    IntAtEncodes(data, off, 4);
    NumbersAtEncodes(data, next, n, k);
    var (xs, end) := NumbersAt(data, next, n, k).value;
    NumbersArrayStep(data, off, t, xs, k, end);
    Slices(data, off, next, end);
  }

  lemma {:induction false} PayloadOfItems(data: seq<byte>, off: nat, t: byte, n: nat)
    requires off <= |data| && ItemsAt(data, off, t, n).Ok?
    ensures var (items, end) := ItemsAt(data, off, t, n).value;
      ItemsWellFormed(items, t)
      && data[off..end] == ItemsBytes(items)
    decreases |data| - off, 2, n
  {
    if n > 0 {
      var (v, next) := ValueAt(data, off, t).value;
      PayloadOfDecode(data, off, t);
      PayloadOfItems(data, next, t, n - 1);
      var (rest, end) := ItemsAt(data, next, t, n - 1).value;
      ItemsCons(data, off, t, n, v, next, rest, end);
    }
  }

  /** The items read are one value followed by the rest, and their bytes are
    * that value's followed by the rest's. */
  lemma ItemsCons(data: seq<byte>, off: nat, t: byte, n: nat, v: Tag, next: nat, rest: seq<Tag>, end: nat)
    requires 0 < n && off <= next <= end <= |data|
    requires ValueAt(data, off, t) == Ok((v, next))
    requires ItemsAt(data, next, t, n - 1) == Ok((rest, end))
    requires WellFormed(v) && data[off..next] == Payload(v)
    requires ItemsWellFormed(rest, t)
    requires data[next..end] == ItemsBytes(rest)
    ensures var (items, e) := ItemsAt(data, off, t, n).value;
      e == end && ItemsWellFormed(items, t)
      && data[off..end] == ItemsBytes(items)
  {
    ItemsStep(data, off, t, n, v, next, rest, end);
    ItemsJoin(data, off, t, v, next, rest, end);
  }

  lemma ItemsJoin(data: seq<byte>, off: nat, t: byte, v: Tag, next: nat, rest: seq<Tag>, end: nat)
    requires off <= next <= end <= |data|
    requires TypeOf(v) == t && WellFormed(v) && data[off..next] == Payload(v)
    requires ItemsWellFormed(rest, t)
    requires data[next..end] == ItemsBytes(rest)
    ensures var items := [v] + rest;
      ItemsWellFormed(items, t)
      && data[off..end] == ItemsBytes(items)
  {
    var items := [v] + rest;
    assert items[1..] == rest;
    Slices(data, off, next, end);
  }

  lemma {:induction false} PayloadOfEntries(data: seq<byte>, off: nat)
    requires off <= |data| && EntriesAt(data, off).Ok?
    ensures var (es, end) := EntriesAt(data, off).value;
      (EntriesWellFormed(es))
      && data[off..end] == EntriesBytes(es) + [TagEnd]
    decreases |data| - off, 0
  {
    var ((tt, name), next) := TagAt(data, off).value;
    if tt != TagEnd {
      TagAtEncodes(data, off);
      var (v, after) := ValueAt(data, next, tt).value;
      PayloadOfDecode(data, next, tt);
      PayloadOfEntries(data, after);
      var (rest, end) := EntriesAt(data, after).value;
      EntriesCons(data, off, tt, name, next, v, after, rest, end);
    }
  }

  lemma EntriesCons(data: seq<byte>, off: nat, t: byte, name: seq<byte>, next: nat, v: Tag, after: nat,
                    rest: seq<Entry>, end: nat)
    requires off <= next <= after <= end <= |data| && t != TagEnd
    requires TagAt(data, off) == Ok(((t, name), next))
    requires data[off..next] == TagHeader(t, name)
    requires ValueAt(data, next, t) == Ok((v, after))
    requires WellFormed(v) && data[next..after] == Payload(v)
    requires EntriesAt(data, after) == Ok((rest, end))
    requires EntriesWellFormed(rest)
    requires data[after..end] == EntriesBytes(rest) + [TagEnd]
    ensures var (es, e) := EntriesAt(data, off).value;
      e == end && (EntriesWellFormed(es))
      && data[off..end] == EntriesBytes(es) + [TagEnd]
  {
    EntriesStep(data, off, t, name, next, v, after, rest, end);
    EntriesJoin(data, off, t, name, next, v, after, rest, end);
  }

  lemma EntriesJoin(data: seq<byte>, off: nat, t: byte, name: seq<byte>, next: nat, v: Tag, after: nat,
                    rest: seq<Entry>, end: nat)
    requires off <= next <= after <= end <= |data| && TypeOf(v) == t && |name| < 0x8000
    requires data[off..next] == TagHeader(t, name)
    requires WellFormed(v) && data[next..after] == Payload(v)
    requires EntriesWellFormed(rest)
    requires data[after..end] == EntriesBytes(rest) + [TagEnd]
    ensures var es := [Entry(name, v)] + rest;
      (EntriesWellFormed(es))
      && data[off..end] == EntriesBytes(es) + [TagEnd]
  {
    var es := [Entry(name, v)] + rest;
    assert es[1..] == rest;
    Slices(data, off, next, end);
    Slices(data, next, after, end);
  }

  /** `rawRead` skips exactly the bytes that `unmarshal` decodes. */
  lemma {:induction false} SkipAgrees(data: seq<byte>, off: nat, t: byte)
    requires off <= |data| && ValueAt(data, off, t).Ok?
    ensures SkipAt(data, off, t) == Ok(ValueAt(data, off, t).value.1)
    decreases |data| - off, 1
  {
    if t == TagList {
      var (n, start) := IntAt(data, off + 1, 4).value;
      SkipItemsAgrees(data, start, data[off], n);
    } else if t == TagCompound {
      SkipEntriesAgrees(data, off);
    }
  }

  lemma {:induction false} SkipItemsAgrees(data: seq<byte>, off: nat, t: byte, n: nat)
    requires off <= |data| && ItemsAt(data, off, t, n).Ok?
    ensures SkipItemsAt(data, off, t, n) == Ok(ItemsAt(data, off, t, n).value.1)
    decreases |data| - off, 2, n
  {
    if n > 0 {
      var next := ValueAt(data, off, t).value.1;
      SkipAgrees(data, off, t);
      SkipItemsAgrees(data, next, t, n - 1);
    }
  }

  lemma {:induction false} SkipEntriesAgrees(data: seq<byte>, off: nat)
    requires off <= |data| && EntriesAt(data, off).Ok?
    ensures SkipEntriesAt(data, off) == Ok(EntriesAt(data, off).value.1)
    decreases |data| - off, 0
  {
    var ((tt, _), next) := TagAt(data, off).value;
    if tt != TagEnd {
      var after := ValueAt(data, next, tt).value.1;
      SkipAgrees(data, next, tt);
      SkipEntriesAgrees(data, after);
    }
  }

  /** `Decode` of a named, well-formed tree followed by anything reads the
    * tree back. */
  lemma DecodeRoundTrip(name: seq<byte>, t: Tag, rest: seq<byte>)
    requires WellFormed(t) && |name| < 0x8000
    ensures Decode(NamedBytes(name, t) + rest) == Ok(((name, t), |NamedBytes(name, t)|))
  {
    var n := NamedBytes(name, t);
    var data := n + rest;
    assert data[0..|n|] == n;
    var mid := SpansSplit(data, 0, |n|, TagHeader(TypeOf(t), name), Payload(t));
    HeaderAt(data, 0, mid, TypeOf(t), name);
    DecodeOfPayload(data, mid, |n|, t);
    NotCompressed(t);
    DecodeStep(data, TypeOf(t), name, mid, t, |n|);
  }

  /** No tag type is mistaken for a compression magic byte. */
  lemma NotCompressed(t: Tag)
    ensures CheckCompressed(TypeOf(t)) == ""
  {
  }

  /** `Decode` once the header and the value are read. */
  lemma DecodeStep(data: seq<byte>, tt: byte, name: seq<byte>, mid: nat, t: Tag, end: nat)
    requires mid <= |data| && TagAt(data, 0) == Ok(((tt, name), mid)) && CheckCompressed(tt) == ""
    requires ValueAt(data, mid, tt) == Ok((t, end))
    ensures Decode(data) == Ok(((name, t), end))
  {
  }

  /** A stream whose first byte is a gzip or zlib magic byte is refused. */
  lemma DecodeRefusesCompressed(data: seq<byte>)
    requires |data| > 0 && (data[0] == 0x1f || data[0] == 0x78)
    ensures Decode(data).Err?
  {
  }

  /** A real gzip stream starts 1f 8b: the name length read from 8b and the
    * next byte is negative, so `readTag` fails before the compression
    * check is reached. */
  lemma DecodeOfGzipHeader(rest: seq<byte>)
    ensures Decode([0x1f, 0x8b, 0x08] + rest) == Err("nbt: " + NegativeString)
  {
    var data := [0x1f, 0x8b, 0x08] + rest;
    assert data[1..3] == [0x8b, 0x08];
    assert Unsigned([0x8b, 0x08]) == 0x8b08 by {
      assert [0x8b, 0x08][..1] == [0x8b];
      assert [0x8b][..0] == [];
    }
  }

  /** A stream holding only TAG_End is refused with `ErrEND`. */
  lemma DecodeOnlyEnd(rest: seq<byte>)
    ensures Decode([TagEnd] + rest) == Err("nbt: fail to decode tag \"\": " + OnlyEnd)
  {
  }

  /** The as-written encoder on a list of lists: the inner list's element
    * type and length are missing, and the bytes do not decode, while the
    * standard layout of the same tree does. */
  lemma MarshalNestedListUnreadable()
    ensures var t := TList(TagList, [TList(TagByte, [TByte(5)])]);
      WellFormed(t) && Marshal([], t) == [9, 0, 0, 9, 0, 0, 0, 1, 5] &&
      Decode(Marshal([], t)) == Err("nbt: fail to decode tag \"\": " + EOF) &&
      Decode(NamedBytes([], t)) == Ok((([], t), 14))
  {
    NestedListMarshal();
    NestedListDecodeFails();
    NestedListNamedDecodes();
  }

  lemma NestedListMarshal()
    ensures Marshal([], TList(TagList, [TList(TagByte, [TByte(5)])])) == [9, 0, 0, 9, 0, 0, 0, 1, 5]
  {
    var inner := TList(TagByte, [TByte(5)]);
    var t := TList(TagList, [inner]);
    assert BigEndian(0, 2) == [0, 0];
    assert BigEndian(1, 4) == [0, 0, 0, 1];
    assert TagHeader(TagList, []) == [9, 0, 0];
    assert ListHeader(TagList, [], 1) == [9, 0, 0, 9, 0, 0, 0, 1];
    assert ValuesBytes([TByte(5)]) == [5];
    assert WriteValue(inner) == [5];
    assert ValuesBytes([inner]) == [5];
    assert WriteValue(t) == [5];
  }

  /** The header promises one list item, but the item's own list header is
    * missing, so the reader runs out of bytes. */
  lemma NestedListDecodeFails()
    ensures Decode([9, 0, 0, 9, 0, 0, 0, 1, 5]) == Err("nbt: fail to decode tag \"\": " + EOF)
  {
    var data: seq<byte> := [9, 0, 0, 9, 0, 0, 0, 1, 5];
    assert TagAt(data, 0) == Ok(((9, []), 3)) by {
      assert data[1..3] == [0, 0];
      assert Unsigned([0, 0]) == 0 by { assert [0, 0][..1] == [0]; }
    }
    assert IntAt(data, 4, 4) == Ok((1, 8)) by {
      assert BigEndian(1, 4) == [0, 0, 0, 1];
      assert data[4..8] == [0, 0, 0, 1];
      IntRoundTrip(data, 4, 1, 4);
    }
    assert ValueAt(data, 8, TagList) == Err(EOF);
    assert ItemsAt(data, 8, TagList, 1) == Err(EOF);
    assert ValueAt(data, 3, TagList) == Err(EOF);
  }

  /** A failure inside the root tag names the tag: a TAG_Byte called `ab`
    * with no payload. */
  lemma DecodeNamesFailedTag()
    ensures Decode([TagByte, 0, 2, 0x61, 0x62]) == Err("nbt: fail to decode tag \"ab\": " + EOF)
  {
    var data: seq<byte> := [TagByte, 0, 2, 0x61, 0x62];
    NamedByteHeader(data);
    QuotedAb();
    assert ValueAt(data, 5, TagByte) == Err(EOF);
  }

  lemma NamedByteHeader(data: seq<byte>)
    requires data == [TagByte, 0, 2, 0x61, 0x62]
    ensures TagAt(data, 0) == Ok(((TagByte, [0x61, 0x62]), 5))
  {
    assert data[1..3] == [0, 2];
    assert Unsigned([0, 2]) == 2 by { assert [0, 2][..1] == [0]; }
    assert data[3..5] == [0x61, 0x62];
  }

  lemma QuotedAb()
    ensures Quote([0x61, 0x62]) == "\"ab\""
  {
    assert [0x61, 0x62][1..] == [0x62];
    assert QuoteBytes([0x61, 0x62]) == "ab";
  }

  /** A failure inside a compound member is wrapped once for the member and
    * once for the root: a root compound holding a TAG_Byte called `a` with
    * no payload. */
  lemma DecodeNamesFailedMember()
    ensures Decode([TagCompound, 0, 0, TagByte, 0, 1, 0x61]) ==
      Err("nbt: fail to decode tag \"\": " + ("fail to decode tag \"a\": " + EOF))
  {
    var data: seq<byte> := [TagCompound, 0, 0, TagByte, 0, 1, 0x61];
    EmptyRootHeader(data);
    MemberFails(data);
    RootFails(data, "fail to decode tag \"a\": " + EOF);
  }

  lemma RootFails(data: seq<byte>, e: string)
    requires data == [TagCompound, 0, 0, TagByte, 0, 1, 0x61]
    requires TagAt(data, 0) == Ok(((TagCompound, []), 3))
    requires EntriesAt(data, 3) == Err(e)
    ensures Decode(data) == Err("nbt: fail to decode tag \"\": " + e)
  {
    assert ValueAt(data, 3, TagCompound) == Err(e);
  }

  lemma MemberFails(data: seq<byte>)
    requires data == [TagCompound, 0, 0, TagByte, 0, 1, 0x61]
    ensures EntriesAt(data, 3) == Err("fail to decode tag \"a\": " + EOF)
  {
    NamedMemberHeader(data);
    QuotedA();
    assert ValueAt(data, 7, TagByte) == Err(EOF);
  }

  lemma EmptyRootHeader(data: seq<byte>)
    requires data == [TagCompound, 0, 0, TagByte, 0, 1, 0x61]
    ensures TagAt(data, 0) == Ok(((TagCompound, []), 3))
  {
    assert data[1..3] == [0, 0];
    assert Unsigned([0, 0]) == 0 by { assert [0, 0][..1] == [0]; }
  }

  lemma NamedMemberHeader(data: seq<byte>)
    requires data == [TagCompound, 0, 0, TagByte, 0, 1, 0x61]
    ensures TagAt(data, 3) == Ok(((TagByte, [0x61]), 7))
  {
    assert data[4..6] == [0, 1];
    assert Unsigned([0, 1]) == 1 by { assert [0, 1][..1] == [0]; }
    assert data[6..7] == [0x61];
  }

  lemma QuotedA()
    ensures Quote([0x61]) == "\"a\""
  {
    assert QuoteBytes([0x61]) == "a";
  }

  lemma NestedListNamedDecodes()
    ensures var t := TList(TagList, [TList(TagByte, [TByte(5)])]);
      WellFormed(t) && Decode(NamedBytes([], t)) == Ok((([], t), 14))
  {
    var inner := TList(TagByte, [TByte(5)]);
    var t := TList(TagList, [inner]);
    assert WellFormed(inner);
    assert WellFormed(t);
    DecodeRoundTrip([], t, []);
    assert NamedBytes([], t) + [] == NamedBytes([], t);
    NestedListNamedLength();
  }

  lemma NestedListNamedLength()
    ensures |NamedBytes([], TList(TagList, [TList(TagByte, [TByte(5)])]))| == 14
  {
    var inner := TList(TagByte, [TByte(5)]);
    assert ItemsBytes([TByte(5)]) == [5];
    assert |Payload(inner)| == 6;
    assert ItemsBytes([inner]) == Payload(inner);
  }
}
