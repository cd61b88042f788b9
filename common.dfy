/** Package common: the varint size estimate (common/varint.go) and the
  * packed array of fixed-width elements used for chunk block data
  * (common/copact.go). A word of the packed array is modelled as its 64
  * bits, and the array's contents as the stream of all its words' bits. */
module Common {
  import opened Bytes
  import opened Writers

  /** `VarintSize`: the number of 7-bit groups of the low 16 bits of `val`,
    * counted with the source's shift loop. */
  method VarintSize(val: int32) returns (count: int)
    ensures 1 <= count <= 3
    ensures count == |VarintBytes(val % 0x1_0000)|
    ensures 0 <= val < 0x1_0000 ==> count == |VarintBytes(val)|
    ensures count == 1 <==> val % 0x1_0000 < 128
  {
    var v: int := val % 0x1_0000;
    VarintLength16(v);
    count := 0;
    while true
      invariant 0 <= v < 0x1_0000
      invariant count + |VarintBytes(v)| == |VarintBytes(val % 0x1_0000)|
      decreases v
    {
      var rest := v / 128;
      count := count + 1;
      if rest == 0 {
        break;
      }
      v := rest;
    }
  }

  predicate IsPowerOfTwo(n: int)
    decreases if n < 0 then 0 else n
  {
    n == 1 || (n > 1 && n % 2 == 0 && IsPowerOfTwo(n / 2))
  }

  /** `alignUp`: `x` rounded up to a multiple of the power of two `alignTo`.
    * Clearing the low bits with `&^ (alignTo - 1)` subtracts the Euclidean
    * remainder, also for negative numbers in two's complement. */
  function AlignUp(x: int, alignTo: int): (r: int)
    requires alignTo > 0 && IsPowerOfTwo(alignTo)
    ensures r % alignTo == 0
    ensures x <= r < x + alignTo
  {
    var y := x + (alignTo - 1);
    assert (y - y % alignTo) % alignTo == 0 by {
      assert y - y % alignTo == alignTo * (y / alignTo);
      DivModUnique(y - y % alignTo, alignTo, y / alignTo, 0);
    }
    y - y % alignTo
  }

  /** `CompactArrayLength`: the number of 64-bit words that hold `count`
    * elements of `bits` bits. */
  function CompactArrayLength(bits: int, count: int): (r: int)
    ensures r * 64 - 64 < bits * count <= r * 64
  {
    assert IsPowerOfTwo(64) by {
      assert IsPowerOfTwo(2) && IsPowerOfTwo(4) && IsPowerOfTwo(8);
      assert IsPowerOfTwo(16) && IsPowerOfTwo(32);
    }
    AlignUp(bits * count, 64) / 64
  }

  /** A 64-bit word of the array, as its bits, least significant first. Go's
    * shifts and masks on a word are slices and concatenations of this
    * sequence. */
  type Word = w: seq<bool> | |w| == 64 witness seq(64, i => false)

  /** The unsigned number whose bits, least significant first, are `bs`. */
  function Num(bs: seq<bool>): (r: nat)
    ensures r < Pow2(|bs|)
  {
    if bs == [] then 0 else (if bs[0] then 1 else 0) + 2 * Num(bs[1..])
  }

  /** The low `n` bits of `v` in two's complement: Go's `v & (1<<n - 1)`. */
  function BitsOf(v: int, n: nat): (r: seq<bool>)
    ensures |r| == n
    decreases n
  {
    if n == 0 then [] else [v % 2 == 1] + BitsOf(v / 2, n - 1)
  }

  function Zeros(n: nat): (r: seq<bool>)
    ensures |r| == n && forall i :: 0 <= i < n ==> !r[i]
  {
    seq(n, i => false)
  }

  /** Reading back the low bits of a number gives it modulo `2^n`. */
  lemma {:induction false} NumBitsOf(v: int, n: nat)
    ensures Num(BitsOf(v, n)) == v % Pow2(n)
    decreases n
  {
    if n > 0 {
      NumBitsOf(v / 2, n - 1);
      assert BitsOf(v, n)[1..] == BitsOf(v / 2, n - 1);
      HalveMod(v, Pow2(n - 1));
    }
  }

  /** Splitting off the low bit of a remainder modulo `2p`. */
  lemma HalveMod(v: int, p: nat)
    requires p >= 1
    ensures v % (2 * p) == 2 * ((v / 2) % p) + v % 2
  {
    var q, b := v / 2, v % 2;
    var t, s := q / p, q % p;
    assert v == 2 * q + b;
    assert q == p * t + s;
    assert v == (2 * p) * t + (2 * s + b) by {
      assert 2 * q == 2 * (p * t) + 2 * s;
      assert 2 * (p * t) == (2 * p) * t;
    }
    DivModUnique(v, 2 * p, t, 2 * s + b);
  }

  /** The bit stream of the whole array: word 0's bits, then word 1's, ... */
  function Flatten(ws: seq<Word>): (r: seq<bool>)
    ensures |r| == 64 * |ws|
  {
    seq(64 * |ws|, k requires 0 <= k < 64 * |ws| => ws[k / 64][k % 64])
  }

  lemma FlattenWord(ws: seq<Word>, j: nat)
    requires j < |ws|
    ensures Flatten(ws)[64 * j..64 * j + 64] == ws[j]
  {
    forall k | 0 <= k < 64
      ensures Flatten(ws)[64 * j + k] == ws[j][k]
    {
      assert (64 * j + k) / 64 == j && (64 * j + k) % 64 == k;
    }
  }

  /** Replacing word `j` replaces bits `64j .. 64j+64` of the stream. */
  lemma FlattenUpdate(ws: seq<Word>, j: nat, w: Word)
    requires j < |ws|
    ensures Flatten(ws[j := w]) == Flatten(ws)[..64 * j] + w + Flatten(ws)[64 * j + 64..]
  {
    var F, G := Flatten(ws), Flatten(ws[j := w]);
    var H := F[..64 * j] + w + F[64 * j + 64..];
    forall k | 0 <= k < |G|
      ensures G[k] == H[k]
    {
      if k < 64 * j {
      } else if k < 64 * j + 64 {
        assert k / 64 == j;
      } else {
        assert k / 64 != j;
      }
    }
  }

  /** Where element `index` lives (lines 27-30): it starts at bit `u` of
    * word `s` and ends in word `e`, which is `s` or the word after it. */
  datatype Place = Place(s: nat, e: nat, u: nat)

  function PlaceOf(bits: nat, index: nat): (r: Place)
    requires 1 <= bits <= 64
    ensures 64 * r.s + r.u == index * bits && r.u < 64
    ensures r.e == r.s <==> r.u + bits <= 64
    ensures r.e != r.s ==> r.e == r.s + 1
  {
    var bIndex := index * bits;
    var s := bIndex / 64;
    var u := bIndex % 64;
    MulSucc(index, bits);
    LastWord((index + 1) * bits - 1, s, u, bits);
    Place(s, ((index + 1) * bits - 1) / 64, u)
  }

  /** The word holding the last bit of an element that starts at bit `u`
    * of word `s`. */
  lemma LastWord(x: int, s: nat, u: nat, bits: nat)
    requires u < 64 && 1 <= bits <= 64 && x == 64 * s + u + bits - 1
    ensures x / 64 == if u + bits <= 64 then s else s + 1
  {
    if u + bits <= 64 {
      DivModUnique(x, 64, s, u + bits - 1);
    } else {
      DivModUnique(x, 64, s + 1, u + bits - 1 - 64);
    }
  }

  /** A window inside one word of the stream. */
  lemma WindowIn(ws: seq<Word>, s: nat, u: nat, n: nat)
    requires s < |ws| && u + n <= 64
    ensures Flatten(ws)[64 * s + u..64 * s + u + n] == ws[s][u..u + n]
  {
    var F, a := Flatten(ws), 64 * s;
    FlattenWord(ws, s);
    forall i | a + u <= i < a + u + n
      ensures F[i] == ws[s][i - a]
    {
      assert F[i] == F[a..a + 64][i - a];
    }
  }

  /** A window that starts in word `s` and ends in word `s + 1`. */
  lemma WindowAcross(ws: seq<Word>, s: nat, u: nat, n: nat)
    requires s + 1 < |ws| && u < 64 < u + n <= 128
    ensures Flatten(ws)[64 * s + u..64 * s + u + n] == ws[s][u..] + ws[s + 1][..n - (64 - u)]
  {
    var F := Flatten(ws);
    var a := 64 * s;
    WindowIn(ws, s, u, 64 - u);
    WindowIn(ws, s + 1, 0, n - (64 - u));
    assert F[a + u..a + u + n] == F[a + u..a + 64] + F[a + 64..a + u + n];
  }

  /** The element at `index` is the window starting at `a == index * bits`. */
  lemma ElementFrom(ws: seq<Word>, bits: nat, index: nat, a: nat)
    requires Fits(ws, bits, index) && a == index * bits
    ensures a + bits <= 64 * |ws| && Element(ws, bits, index) == Flatten(ws)[a..a + bits]
  {
    MulSucc(index, bits);
  }

  /** The number of stream bits the array holds room for. */
  predicate Fits(ws: seq<Word>, bits: nat, index: nat)
  {
    1 <= bits <= 64 && (index + 1) * bits <= 64 * |ws|
  }

  /** The element at `index`, as bits: a window of the stream. */
  function Element(ws: seq<Word>, bits: nat, index: nat): (r: seq<bool>)
    requires Fits(ws, bits, index)
    ensures |r| == bits
  {
    Flatten(ws)[index * bits..(index + 1) * bits]
  }

  /** Word `j` with its bits `u .. u + |x|` replaced by `x`. */
  function StoreIn(ws: seq<Word>, j: nat, u: nat, x: seq<bool>): (r: seq<Word>)
    requires j < |ws| && u + |x| <= 64
    ensures |r| == |ws|
  {
    ws[j := ws[j][..u] + x + ws[j][u + |x|..]]
  }

  /** The top `64 - u` bits of word `s` replaced by the first bits of `x`,
    * and the low bits of word `s + 1` by the rest of `x`. */
  function StoreAcross(ws: seq<Word>, s: nat, u: nat, x: seq<bool>): (r: seq<Word>)
    requires s + 1 < |ws| && u < 64 && 64 - u <= |x| <= 128 - u
    ensures |r| == |ws|
  {
    ws[s := ws[s][..u] + x[..64 - u]][s + 1 := x[64 - u..] + ws[s + 1][|x| - (64 - u)..]]
  }

  /** `Set` on the words, as written. Line 36 stores the value's low bits
    * at offset `u` of word `s`. When the element spills into word `e`,
    * line 47 shifts word `e` right and back left by `bits - 1`, which
    * zeroes its low `bits - 1` bits, and ORs in the `bits - z` spilled bits
    * of the value: the low `bits - 1` bits become the spill followed by
    * `z - 1` zeros. */
  function SetWords(ws: seq<Word>, bits: nat, index: nat, value: int): (r: seq<Word>)
    requires Fits(ws, bits, index)
    ensures |r| == |ws|
  {
    var p := PlaceOf(bits, index);
    var vb := BitsOf(value, bits);
    if p.s == p.e then
      StoreIn(ws, p.s, p.u, vb)
    else
      assert p.e < |ws| by { MulMono(64, p.s + 1, |ws| - 1); }
      StoreAcross(ws, p.s, p.u, vb + Zeros(64 - p.u - 1))
  }

  /** `Set` on the words as evidently intended: the spill replaces only the
    * `bits - z` low bits of word `e` that belong to this element. */
  function SetWordsFixed(ws: seq<Word>, bits: nat, index: nat, value: int): (r: seq<Word>)
    requires Fits(ws, bits, index)
    ensures |r| == |ws|
  {
    var p := PlaceOf(bits, index);
    var vb := BitsOf(value, bits);
    if p.s == p.e then
      StoreIn(ws, p.s, p.u, vb)
    else
      assert p.e < |ws| by { MulMono(64, p.s + 1, |ws| - 1); }
      StoreAcross(ws, p.s, p.u, vb)
  }

  /** Storing into word `j` replaces the same window of the stream. */
  lemma StoreInSplice(ws: seq<Word>, j: nat, u: nat, x: seq<bool>)
    requires j < |ws| && u + |x| <= 64
    ensures var F := Flatten(ws);
      Flatten(StoreIn(ws, j, u, x)) == F[..64 * j + u] + x + F[64 * j + u + |x|..]
  {
    var F := Flatten(ws);
    var W := ws[j];
    assert |W| == 64;
    var w: Word := W[..u] + x + W[u + |x|..];
    assert Flatten(StoreIn(ws, j, u, x)) == F[..64 * j] + w + F[64 * j + 64..] by {
      assert StoreIn(ws, j, u, x) == ws[j := w];
      FlattenUpdate(ws, j, w);
    }
    assert W == F[64 * j..64 * j + 64] by { FlattenWord(ws, j); }
    Splice(F, 64 * j, u, x);
  }

  /** Replacing a window inside a 64-element slice of a sequence replaces
    * that window of the whole sequence. */
  lemma Splice<T>(F: seq<T>, a: nat, u: nat, x: seq<T>)
    requires a + 64 <= |F| && u + |x| <= 64
    ensures var W := F[a..a + 64];
      F[..a] + (W[..u] + x + W[u + |x|..]) + F[a + 64..] == F[..a + u] + x + F[a + u + |x|..]
  {
    var W := F[a..a + 64];
    var A, B, C, D := F[..a], W[..u], W[u + |x|..], F[a + 64..];
    assert A + B == F[..a + u];
    assert C + D == F[a + u + |x|..];
    assert A + (B + x + C) + D == (A + B) + x + (C + D);
  }

  /** Storing across words `s` and `s + 1` replaces one window of the
    * stream that spans both. */
  lemma StoreAcrossSplice(ws: seq<Word>, s: nat, u: nat, x: seq<bool>)
    requires s + 1 < |ws| && u < 64 && 64 - u <= |x| <= 128 - u
    ensures var F := Flatten(ws);
      Flatten(StoreAcross(ws, s, u, x)) == F[..64 * s + u] + x + F[64 * s + u + |x|..]
  {
    var z := 64 - u;
    var x0, x1 := x[..z], x[z..];
    StoreInSplice(ws, s, u, x0);
    var ws1 := StoreIn(ws, s, u, x0);
    StoreInSplice(ws1, s + 1, 0, x1);
    StoreAcrossTwice(ws, s, u, x);
    JoinSplices(Flatten(ws), Flatten(ws1), Flatten(StoreIn(ws1, s + 1, 0, x1)), 64 * s + u, x0, x1);
    assert x0 + x1 == x;
  }

  /** Storing across two words is storing the head into the first word and
    * then the tail into the second. */
  lemma StoreAcrossTwice(ws: seq<Word>, s: nat, u: nat, x: seq<bool>)
    requires s + 1 < |ws| && u < 64 && 64 - u <= |x| <= 128 - u
    ensures StoreAcross(ws, s, u, x) == StoreIn(StoreIn(ws, s, u, x[..64 - u]), s + 1, 0, x[64 - u..])
  {
    var z := 64 - u;
    assert ws[s][u + z..] == [];
    assert ws[s][..u] + x[..z] + ws[s][u + z..] == ws[s][..u] + x[..z];
    assert [] + x[z..] == x[z..];
  }

  /** Two adjacent splices make one. */
  lemma JoinSplices(F: seq<bool>, F1: seq<bool>, G: seq<bool>, a: nat, x0: seq<bool>, x1: seq<bool>)
    requires a + |x0| + |x1| <= |F|
    requires F1 == F[..a] + x0 + F[a + |x0|..]
    requires G == F1[..a + |x0|] + x1 + F1[a + |x0| + |x1|..]
    ensures G == F[..a] + (x0 + x1) + F[a + |x0| + |x1|..]
  {
    var b := a + |x0|;
    assert F1[..b] == F[..a] + x0;
    assert F1[b + |x1|..] == F[b + |x1|..];
  }

  /** The two words `Set` as written stores across words `s` and `s + 1`. */
  lemma StoreAcrossWords(ws: seq<Word>, s: nat, u: nat, vb: seq<bool>, w0: Word, w1: Word)
    requires s + 1 < |ws| && 0 < u < 64 && 64 - u < |vb| < 64
    requires w0 == ws[s][..u] + vb[..64 - u]
    requires w1 == vb[64 - u..] + Zeros(64 - u - 1) + ws[s + 1][|vb| - 1..]
    ensures ws[s := w0][s + 1 := w1] == StoreAcross(ws, s, u, vb + Zeros(64 - u - 1))
  {
    var z := 64 - u;
    var x := vb + Zeros(z - 1);
    assert x[..z] == vb[..z];
    assert x[z..] == vb[z..] + Zeros(z - 1);
  }

  /** The intended `Set` replaces exactly the element's window of the
    * stream with the low `bits` bits of the value. */
  lemma SetWordsFixedSplice(ws: seq<Word>, bits: nat, index: nat, value: int)
    requires Fits(ws, bits, index)
    ensures var F := Flatten(ws);
      Flatten(SetWordsFixed(ws, bits, index, value))
        == F[..index * bits] + BitsOf(value, bits) + F[(index + 1) * bits..]
  {
    var p := PlaceOf(bits, index);
    if p.s == p.e {
      SetWordsFixedSpliceIn(ws, bits, index, value);
    } else {
      SetWordsFixedSpliceAcross(ws, bits, index, value);
    }
  }

  lemma SetWordsFixedSpliceIn(ws: seq<Word>, bits: nat, index: nat, value: int)
    requires Fits(ws, bits, index) && PlaceOf(bits, index).s == PlaceOf(bits, index).e
    ensures var F := Flatten(ws);
      Flatten(SetWordsFixed(ws, bits, index, value))
        == F[..index * bits] + BitsOf(value, bits) + F[(index + 1) * bits..]
  {
    var p := PlaceOf(bits, index);
    MulSucc(index, bits);
    StoreInSplice(ws, p.s, p.u, BitsOf(value, bits));
  }

  lemma SetWordsFixedSpliceAcross(ws: seq<Word>, bits: nat, index: nat, value: int)
    requires Fits(ws, bits, index) && PlaceOf(bits, index).s != PlaceOf(bits, index).e
    ensures var F := Flatten(ws);
      Flatten(SetWordsFixed(ws, bits, index, value))
        == F[..index * bits] + BitsOf(value, bits) + F[(index + 1) * bits..]
  {
    var p := PlaceOf(bits, index);
    MulSucc(index, bits);
    assert p.e < |ws| by { MulMono(64, p.s + 1, |ws| - 1); }
    StoreAcrossSplice(ws, p.s, p.u, BitsOf(value, bits));
  }

  /** The number of stream bits after element `index` that `Set` as written
    * clears: none when the element lies in one word, `64 - u - 1` when it
    * spills into the next word. */
  function Clobbered(bits: nat, index: nat): (r: nat)
    requires 1 <= bits <= 64
    ensures r < bits
    ensures r > 0 ==> PlaceOf(bits, index).s != PlaceOf(bits, index).e
  {
    var p := PlaceOf(bits, index);
    if p.s == p.e then 0 else 64 - p.u - 1
  }

  /** `Set` as written replaces the element's window of the stream with the
    * value's low bits and also clears the `Clobbered` bits after it. */
  lemma SetWordsSplice(ws: seq<Word>, bits: nat, index: nat, value: int)
    requires Fits(ws, bits, index)
    ensures var F := Flatten(ws); var k := Clobbered(bits, index);
      (index + 1) * bits + k <= |F| &&
      Flatten(SetWords(ws, bits, index, value))
        == F[..index * bits] + BitsOf(value, bits) + Zeros(k) + F[(index + 1) * bits + k..]
  {
    var p := PlaceOf(bits, index);
    if p.s == p.e {
      SetWordsSpliceIn(ws, bits, index, value);
    } else {
      SetWordsSpliceAcross(ws, bits, index, value);
    }
  }

  lemma SetWordsSpliceIn(ws: seq<Word>, bits: nat, index: nat, value: int)
    requires Fits(ws, bits, index) && PlaceOf(bits, index).s == PlaceOf(bits, index).e
    ensures var F := Flatten(ws); var k := Clobbered(bits, index);
      (index + 1) * bits + k <= |F| &&
      Flatten(SetWords(ws, bits, index, value))
        == F[..index * bits] + BitsOf(value, bits) + Zeros(k) + F[(index + 1) * bits + k..]
  {
    var p := PlaceOf(bits, index);
    var vb := BitsOf(value, bits);
    MulSucc(index, bits);
    StoreInSplice(ws, p.s, p.u, vb);
    assert vb + Zeros(0) == vb;
  }

  lemma SetWordsSpliceAcross(ws: seq<Word>, bits: nat, index: nat, value: int)
    requires Fits(ws, bits, index) && PlaceOf(bits, index).s != PlaceOf(bits, index).e
    ensures var F := Flatten(ws); var k := Clobbered(bits, index);
      (index + 1) * bits + k <= |F| &&
      Flatten(SetWords(ws, bits, index, value))
        == F[..index * bits] + BitsOf(value, bits) + Zeros(k) + F[(index + 1) * bits + k..]
  {
    var p := PlaceOf(bits, index);
    MulSucc(index, bits);
    StoreAcrossAt(ws, p.s, p.u, BitsOf(value, bits), 64 - p.u - 1, index * bits);
  }

  /** `StoreAcross` of a value followed by `k` zeros, as a splice at the
    * stream position `a`. */
  lemma StoreAcrossAt(ws: seq<Word>, s: nat, u: nat, vb: seq<bool>, k: nat, a: nat)
    requires s + 1 < |ws| && u < 64 && 64 - u <= |vb| + k <= 128 - u && a == 64 * s + u
    ensures var F := Flatten(ws);
      Flatten(StoreAcross(ws, s, u, vb + Zeros(k))) == F[..a] + vb + Zeros(k) + F[a + |vb| + k..]
  {
    StoreAcrossSplice(ws, s, u, vb + Zeros(k));
    var F := Flatten(ws);
    assert F[..a] + (vb + Zeros(k)) == F[..a] + vb + Zeros(k);
  }

  lemma MulSucc(i: nat, b: nat)
    ensures (i + 1) * b == i * b + b
  {
  }

  /** A window of a spliced sequence: inside the splice it is the new part,
    * away from the splice it is the old sequence. */
  lemma Window(F: seq<bool>, G: seq<bool>, a: nat, y: seq<bool>, c: nat, d: nat)
    requires a + |y| <= |F| && G == F[..a] + y + F[a + |y|..]
    requires c <= d <= |F|
    ensures |G| == |F|
    ensures d <= a || a + |y| <= c ==> G[c..d] == F[c..d]
    ensures a <= c <= d <= a + |y| ==> G[c..d] == y[c - a..d - a]
  {
    assert |G| == |F|;
    if d <= a || a + |y| <= c {
      assert forall k :: c <= k < d ==> G[k] == F[k];
    }
    if a <= c <= d <= a + |y| {
      assert forall k :: c <= k < d ==> G[k] == y[k - a];
    }
  }

  /** Element `j` lies before element `index`, or after the `bits + k`
    * stream bits from the start of element `index`. */
  lemma ElementsApart(bits: nat, index: nat, j: nat, k: nat)
    requires 1 <= bits && k < bits && j != index && j != index + 1
    ensures (j + 1) * bits <= index * bits || index * bits + bits + k <= j * bits
  {
    if j < index {
      MulMono(bits, j + 1, index);
    } else {
      MulMono(bits, index + 2, j);
    }
  }

  /** The intended `Set` stores the value's low bits at `index` and leaves
    * every other element as it was. */
  lemma SetWordsFixedElements(ws: seq<Word>, bits: nat, index: nat, value: int, j: nat)
    requires Fits(ws, bits, index) && Fits(ws, bits, j)
    ensures Element(SetWordsFixed(ws, bits, index, value), bits, index) == BitsOf(value, bits)
    ensures j != index ==> Element(SetWordsFixed(ws, bits, index, value), bits, j) == Element(ws, bits, j)
  {
    var vb := BitsOf(value, bits);
    SetWordsFixedSplice(ws, bits, index, value);
    var F, G := Flatten(ws), Flatten(SetWordsFixed(ws, bits, index, value));
    MulSucc(index, bits);
    SetWordsHere(F, G, bits, index, vb);
    if j != index {
      if j != index + 1 {
        ElementsApart(bits, index, j, 0);
      }
      SetWordsApart(F, G, bits, index, vb, j);
    }
  }

  /** `Set` as written stores the value's low bits at `index` and leaves
    * every element other than the next one as it was; the next element
    * loses its low `Clobbered` bits, which become zero. */
  lemma SetWordsElements(ws: seq<Word>, bits: nat, index: nat, value: int, j: nat)
    requires Fits(ws, bits, index) && Fits(ws, bits, j)
    ensures Element(SetWords(ws, bits, index, value), bits, index) == BitsOf(value, bits)
    ensures j != index && j != index + 1 ==>
      Element(SetWords(ws, bits, index, value), bits, j) == Element(ws, bits, j)
    ensures j == index + 1 ==> var k := Clobbered(bits, index);
      Element(SetWords(ws, bits, index, value), bits, j) == Zeros(k) + Element(ws, bits, j)[k..]
  {
    SetWordsSplice(ws, bits, index, value);
    var F, G := Flatten(ws), Flatten(SetWords(ws, bits, index, value));
    var y := BitsOf(value, bits) + Zeros(Clobbered(bits, index));
    SetWordsHere(F, G, bits, index, y);
    if j == index + 1 {
      SetWordsNext(F, G, bits, index, y);
    } else if j != index {
      SetWordsFar(F, G, bits, index, y, j);
    }
  }

  lemma SetWordsFar(F: seq<bool>, G: seq<bool>, bits: nat, index: nat, y: seq<bool>, j: nat)
    requires 1 <= bits <= |y| < 2 * bits && j != index && j != index + 1
    requires index * bits + |y| <= |F| && (j + 1) * bits <= |F|
    requires G == F[..index * bits] + y + F[index * bits + |y|..]
    ensures G[j * bits..(j + 1) * bits] == F[j * bits..(j + 1) * bits]
  {
    ElementsApart(bits, index, j, |y| - bits);
    SetWordsApart(F, G, bits, index, y, j);
  }

  lemma SetWordsHere(F: seq<bool>, G: seq<bool>, bits: nat, index: nat, y: seq<bool>)
    requires bits <= |y| && index * bits + |y| <= |F|
    requires G == F[..index * bits] + y + F[index * bits + |y|..]
    ensures G[index * bits..(index + 1) * bits] == y[..bits]
  {
    var a := index * bits;
    assert (index + 1) * bits == a + bits;
    Window(F, G, a, y, a, a + bits);
  }

  lemma SetWordsNext(F: seq<bool>, G: seq<bool>, bits: nat, index: nat, y: seq<bool>)
    requires bits <= |y| < 2 * bits && (index + 2) * bits <= |F|
    requires G == F[..index * bits] + y + F[index * bits + |y|..]
    ensures G[(index + 1) * bits..(index + 2) * bits]
      == y[bits..] + F[(index + 1) * bits..(index + 2) * bits][|y| - bits..]
  {
    var a := index * bits;
    assert (index + 1) * bits == a + bits && (index + 2) * bits == a + 2 * bits;
    NextElement(F, G, a, y, bits, |y| - bits);
  }

  lemma SetWordsApart(F: seq<bool>, G: seq<bool>, bits: nat, index: nat, y: seq<bool>, j: nat)
    requires index * bits + |y| <= |F| && (j + 1) * bits <= |F|
    requires (j + 1) * bits <= index * bits || index * bits + |y| <= j * bits
    requires G == F[..index * bits] + y + F[index * bits + |y|..]
    ensures G[j * bits..(j + 1) * bits] == F[j * bits..(j + 1) * bits]
  {
    var a, c := index * bits, j * bits;
    assert (j + 1) * bits == c + bits;
    Window(F, G, a, y, c, c + bits);
  }

  /** The element after a splice of `bits + k` bits starting at `a` begins
    * with the splice's last `k` bits. */
  lemma NextElement(F: seq<bool>, G: seq<bool>, a: nat, y: seq<bool>, bits: nat, k: nat)
    requires |y| == bits + k && k < bits && a + 2 * bits <= |F|
    requires G == F[..a] + y + F[a + |y|..]
    ensures G[a + bits..a + 2 * bits] == y[bits..] + F[a + bits..a + 2 * bits][k..]
  {
    var c := a + bits;
    Window(F, G, a, y, c, c + k);
    Window(F, G, a, y, c + k, c + bits);
    assert G[c..c + bits] == G[c..c + k] + G[c + k..c + bits];
  }

  /** Two arrays of the same length with the same stream are equal. */
  lemma FlattenInjective(a: seq<Word>, b: seq<Word>)
    requires |a| == |b| && Flatten(a) == Flatten(b)
    ensures a == b
  {
    forall j | 0 <= j < |a|
      ensures a[j] == b[j]
    {
      FlattenWord(a, j);
      FlattenWord(b, j);
    }
  }

  /** When every stream bit from element `index` on is still zero, as when
    * the elements of a fresh array are set in increasing order, `Set` as
    * written has the same effect as the intended one. */
  lemma SetWordsOnZeroTail(ws: seq<Word>, bits: nat, index: nat, value: int)
    requires Fits(ws, bits, index)
    requires forall k :: index * bits <= k < 64 * |ws| ==> !Flatten(ws)[k]
    ensures SetWords(ws, bits, index, value) == SetWordsFixed(ws, bits, index, value)
  {
    var F, vb, k := Flatten(ws), BitsOf(value, bits), Clobbered(bits, index);
    SetWordsSplice(ws, bits, index, value);
    SetWordsFixedSplice(ws, bits, index, value);
    MulSucc(index, bits);
    ZeroTail(F, index * bits, vb, k);
    FlattenInjective(SetWords(ws, bits, index, value), SetWordsFixed(ws, bits, index, value));
  }

  /** Clearing `k` bits that are already zero after a splice changes nothing. */
  lemma ZeroTail(F: seq<bool>, a: nat, vb: seq<bool>, k: nat)
    requires a + |vb| + k <= |F|
    requires forall i :: a <= i < |F| ==> !F[i]
    ensures F[..a] + vb + Zeros(k) + F[a + |vb| + k..] == F[..a] + vb + F[a + |vb|..]
  {
    var m := a + |vb|;
    assert F[m..m + k] == Zeros(k);
    assert F[m..] == Zeros(k) + F[m + k..];
  }

  /** A concrete case: with 5-bit elements, element 12 starts at bit 60 of
    * word 0 and spills one bit into word 1, and setting it clears the low
    * three bits of element 13. */
  lemma SetWordsClobbersNext()
    ensures var ws: seq<Word> := [Ones(64), Ones(64)];
      Element(SetWords(ws, 5, 12, 0), 5, 13) != Element(ws, 5, 13)
  {
    var ws: seq<Word> := [Ones(64), Ones(64)];
    assert Clobbered(5, 12) == 3;
    SetWordsElements(ws, 5, 12, 0, 13);
    assert Element(ws, 5, 13)[0] == Flatten(ws)[65] == ws[1][1];
    assert Element(SetWords(ws, 5, 12, 0), 5, 13)[0] == Zeros(3)[0];
  }

  function Ones(n: nat): (r: seq<bool>)
    ensures |r| == n && forall i :: 0 <= i < n ==> r[i]
  {
    seq(n, i => true)
  }

  lemma {:induction false} NumAppend(a: seq<bool>, b: seq<bool>)
    ensures Num(a + b) == Num(a) + Pow2(|a|) * Num(b)
  {
    if a == [] {
      assert a + b == b;
    } else {
      var h := if a[0] then 1 else 0;
      var P, N, M := Pow2(|a| - 1), Num(b), Num(a[1..]);
      var x := Num(a + b);
      assert x == h + 2 * Num(a[1..] + b) by {
        assert (a + b)[1..] == a[1..] + b;
      }
      NumAppend(a[1..], b);
      ShiftedSum(x, h, M, P, N, Num(a), Pow2(|a|));
    }
  }

  /** The arithmetic step of `NumAppend`. */
  lemma ShiftedSum(x: int, h: int, m: int, p: int, n: int, num: int, pow: int)
    requires x == h + 2 * (m + p * n) && num == h + 2 * m && pow == 2 * p
    ensures x == num + pow * n
  {
  }

  lemma {:induction false} NumZeros(n: nat)
    ensures Num(Zeros(n)) == 0
  {
    if n > 0 {
      assert Zeros(n)[1..] == Zeros(n - 1);
      NumZeros(n - 1);
    }
  }

  /** A pattern of `n + 1` bits is at least `2^n` exactly when its top bit
    * is set. */
  lemma NumTop(bs: seq<bool>, n: nat)
    requires |bs| == n + 1
    ensures bs[n] <==> Num(bs) >= Pow2(n)
  {
    var lo := bs[..n];
    assert bs == lo + [bs[n]];
    NumAppend(lo, [bs[n]]);
    NumSingle(bs[n]);
    TopSplit(Num(bs), Num(lo), Pow2(n), Num([bs[n]]));
  }

  lemma NumSingle(b: bool)
    ensures Num([b]) == if b then 1 else 0
  {
    assert [b][1..] == [];
  }

  /** A number below `2p` made of a remainder below `p` and a top bit. */
  lemma TopSplit(x: int, lo: int, p: int, h: int)
    requires 0 <= lo < p && (h == 0 || h == 1) && x == lo + p * h
    ensures h == 1 <==> x >= p
  {
  }

  /** The element's bits read from the words: inside word `s`, or the top of
    * word `s` followed by the bottom of word `e`. */
  lemma ElementWords(ws: seq<Word>, bits: nat, index: nat)
    requires Fits(ws, bits, index)
    ensures var p := PlaceOf(bits, index);
      p.s == p.e ==> Element(ws, bits, index) == ws[p.s][p.u..p.u + bits]
    ensures var p := PlaceOf(bits, index);
      p.s != p.e ==> p.e < |ws| && Element(ws, bits, index) == ws[p.s][p.u..] + ws[p.e][..bits - (64 - p.u)]
  {
    var p := PlaceOf(bits, index);
    if p.s == p.e {
      ElementInWord(ws, bits, index, p);
    } else {
      ElementAcrossWords(ws, bits, index, p);
    }
  }

  lemma ElementInWord(ws: seq<Word>, bits: nat, index: nat, p: Place)
    requires Fits(ws, bits, index) && p == PlaceOf(bits, index) && p.s == p.e
    ensures Element(ws, bits, index) == ws[p.s][p.u..p.u + bits]
  {
    ElementFrom(ws, bits, index, 64 * p.s + p.u);
    WindowIn(ws, p.s, p.u, bits);
  }

  lemma ElementAcrossWords(ws: seq<Word>, bits: nat, index: nat, p: Place)
    requires Fits(ws, bits, index) && p == PlaceOf(bits, index) && p.s != p.e
    ensures p.e < |ws| && Element(ws, bits, index) == ws[p.s][p.u..] + ws[p.e][..bits - (64 - p.u)]
  {
    ElementFrom(ws, bits, index, 64 * p.s + p.u);
    WindowAcross(ws, p.s, p.u, bits);
  }

  /** The bitwise OR of two patterns of equal length. */
  function Or(a: seq<bool>, b: seq<bool>): (r: seq<bool>)
    requires |a| == |b|
    ensures |r| == |a| && forall i :: 0 <= i < |a| ==> r[i] == (a[i] || b[i])
  {
    seq(|a|, i requires 0 <= i < |a| => a[i] || b[i])
  }

  /** Go's conversion of a 64-bit unsigned pattern to `int`. */
  function ToInt64(n: nat): int
  {
    if n >= 0x8000_0000_0000_0000 then n - 0x1_0000_0000_0000_0000 else n
  }

  /** A value narrower than 64 bits converts to itself. */
  lemma ToInt64Narrow(n: nat, bits: nat)
    requires bits < 64 && n < Pow2(bits)
    ensures ToInt64(n) == n
  {
    Pow2Mono(bits, 63);
    Pow2Of64();
  }

  /** A 64-bit pattern converts to a negative `int` exactly when its top bit
    * is set, and to its unsigned value when it is clear. */
  lemma ToInt64Sign(bs: seq<bool>)
    requires |bs| == 64
    ensures ToInt64(Num(bs)) < 0 <==> bs[63]
    ensures !bs[63] ==> ToInt64(Num(bs)) == Num(bs)
  {
    NumTop(bs, 63);
    Pow2Of64();
  }

  /** An `int64` stored as its 64-bit two's complement pattern converts
    * back to itself. */
  lemma ToInt64RoundTrip(v: int)
    requires -(Pow2(63) as int) <= v < Pow2(63)
    ensures ToInt64(v % Pow2(64)) == v
  {
    var P := Pow2(64);
    Pow2Of64();
    if v < 0 {
      DivModUnique(v, P, -1, v + P);
    } else {
      DivModUnique(v, P, 0, v);
    }
  }

  /** `Get` on the words, as written. Inside one word (line 60) the element
    * is shifted down and masked, and the 64-bit result converts to a signed
    * `int`, which is negative for a 64-bit element whose top bit is set. Across words (line 65) Go's precedence
    * applies the mask to the second operand only, and `V[s] >> u` on an
    * `int64` is an arithmetic shift, which fills the top `u` bits with
    * copies of bit 63. */
  function GetWords(ws: seq<Word>, bits: nat, index: nat): int
    requires Fits(ws, bits, index)
  {
    var p := PlaceOf(bits, index);
    if p.s == p.e then
      ToInt64(Num(ws[p.s][p.u..p.u + bits]))
    else
      var z := 64 - p.u;
      assert p.e < |ws| by { MulMono(64, p.s + 1, |ws| - 1); }
      var shifted := ws[p.s][p.u..] + (if ws[p.s][63] then Ones(p.u) else Zeros(p.u));
      var spill := Zeros(z) + ws[p.e][..bits - z] + Zeros(64 - bits);
      ToInt64(Num(Or(shifted, spill)))
  }

  /** `Get` as evidently intended: the element's bits, read with logical
    * shifts from one word or from two, as Go's signed `int`. */
  function GetWordsFixed(ws: seq<Word>, bits: nat, index: nat): int
    requires Fits(ws, bits, index)
  {
    var p := PlaceOf(bits, index);
    if p.s == p.e then
      ToInt64(Num(ws[p.s][p.u..p.u + bits]))
    else
      assert p.e < |ws| by { MulMono(64, p.s + 1, |ws| - 1); }
      Num(ws[p.s][p.u..] + ws[p.e][..bits - (64 - p.u)])
  }

  /** The intended `Get` reads the element's window of the stream: below 64
    * bits as an unsigned number, at 64 bits as a signed one. */
  lemma GetWordsFixedReads(ws: seq<Word>, bits: nat, index: nat)
    requires Fits(ws, bits, index)
    ensures GetWordsFixed(ws, bits, index) == ToInt64(Num(Element(ws, bits, index)))
    ensures bits < 64 ==>
      GetWordsFixed(ws, bits, index) == Num(Element(ws, bits, index)) && GetWordsFixed(ws, bits, index) < Pow2(bits)
  {
    var p := PlaceOf(bits, index);
    ElementWords(ws, bits, index);
    if p.s != p.e {
      CrossingPlace(bits, index, p);
    }
    if bits < 64 {
      ToInt64Narrow(Num(Element(ws, bits, index)), bits);
    }
  }

  /** `Get` as written reads the element's window of the stream, as a signed
    * `int` (negative at 64 bits when the element's top bit is set), except
    * when the element spills into the next word and bit 63 of its first
    * word is set: then the result is negative. */
  lemma GetWordsReads(ws: seq<Word>, bits: nat, index: nat)
    requires Fits(ws, bits, index)
    ensures var p := PlaceOf(bits, index);
      p.s == p.e ==> GetWords(ws, bits, index) == ToInt64(Num(Element(ws, bits, index)))
    ensures var p := PlaceOf(bits, index);
      (p.s == p.e && bits < 64) || (p.s != p.e && !ws[p.s][63]) ==>
        GetWords(ws, bits, index) == Num(Element(ws, bits, index))
    ensures var p := PlaceOf(bits, index);
      p.s != p.e && ws[p.s][63] ==> GetWords(ws, bits, index) < 0
    ensures bits == 64 ==> (GetWords(ws, bits, index) < 0 <==> Element(ws, bits, index)[63])
  {
    var p := PlaceOf(bits, index);
    if p.s != p.e {
      CrossingPlace(bits, index, p);
      ElementAcrossWords(ws, bits, index, p);
      GetWordsSpill(ws, bits, index, p);
    } else {
      GetWordsInWord(ws, bits, index, p);
      var e := Element(ws, bits, index);
      if bits < 64 {
        ToInt64Narrow(Num(e), bits);
      } else {
        ToInt64Sign(e);
      }
    }
  }

  /** Inside one word, `Get` as written converts the element's bits to a
    * signed `int`. */
  lemma GetWordsInWord(ws: seq<Word>, bits: nat, index: nat, p: Place)
    requires Fits(ws, bits, index) && p == PlaceOf(bits, index) && p.s == p.e
    ensures GetWords(ws, bits, index) == ToInt64(Num(Element(ws, bits, index)))
  {
    ElementInWord(ws, bits, index, p);
  }

  lemma GetWordsSpill(ws: seq<Word>, bits: nat, index: nat, p: Place)
    requires Fits(ws, bits, index) && p == PlaceOf(bits, index) && p.s != p.e && p.e < |ws|
    ensures !ws[p.s][63] ==> GetWords(ws, bits, index) == Num(ws[p.s][p.u..] + ws[p.e][..bits - (64 - p.u)])
    ensures ws[p.s][63] ==> GetWords(ws, bits, index) < 0
  {
    CrossingPlace(bits, index, p);
    if ws[p.s][63] {
      GetWordsSpillSet(ws, bits, index, p);
    } else {
      GetWordsSpillClear(ws, bits, index, p);
    }
  }

  lemma GetWordsSpillSet(ws: seq<Word>, bits: nat, index: nat, p: Place)
    requires Fits(ws, bits, index) && p == PlaceOf(bits, index) && p.s != p.e && p.e < |ws|
    requires 0 < p.u && 64 - p.u < bits < 64 && ws[p.s][63]
    ensures GetWords(ws, bits, index) < 0
  {
    var o := Or(ws[p.s][p.u..] + Ones(p.u), Zeros(64 - p.u) + ws[p.e][..bits - (64 - p.u)] + Zeros(64 - bits));
    GetWordsSpillIs(ws, bits, index, p, o);
    ToInt64Sign(o);
  }

  lemma GetWordsSpillClear(ws: seq<Word>, bits: nat, index: nat, p: Place)
    requires Fits(ws, bits, index) && p == PlaceOf(bits, index) && p.s != p.e && p.e < |ws|
    requires 0 < p.u && 64 - p.u < bits < 64 && !ws[p.s][63]
    ensures GetWords(ws, bits, index) == Num(ws[p.s][p.u..] + ws[p.e][..bits - (64 - p.u)])
  {
    var hi := ws[p.s][p.u..];
    var lo := ws[p.e][..bits - (64 - p.u)];
    var o := Or(hi + Zeros(p.u), Zeros(64 - p.u) + lo + Zeros(64 - bits));
    assert (if ws[p.s][63] then Ones(p.u) else Zeros(p.u)) == Zeros(p.u);
    GetWordsSpillIs(ws, bits, index, p, o);
    assert GetWords(ws, bits, index) == ToInt64(Num(o));
    SpillClear(hi, lo, p.u, 64 - bits);
  }

  /** `Get` across words reads the OR of the shifted first word and the
    * spilled bits, whose top bit is bit 63 of the first word. */
  lemma GetWordsSpillIs(ws: seq<Word>, bits: nat, index: nat, p: Place, o: seq<bool>)
    requires Fits(ws, bits, index) && p == PlaceOf(bits, index) && p.s != p.e && p.e < |ws|
    requires 0 < p.u && 64 - p.u < bits < 64
    requires o == Or(ws[p.s][p.u..] + (if ws[p.s][63] then Ones(p.u) else Zeros(p.u)),
                     Zeros(64 - p.u) + ws[p.e][..bits - (64 - p.u)] + Zeros(64 - bits))
    ensures GetWords(ws, bits, index) == ToInt64(Num(o)) && |o| == 64 && o[63] == ws[p.s][63]
  {
  }

  /** With bit 63 clear, the combined word is the element padded with zeros,
    * and reads as the element's value. */
  lemma SpillClear(hi: seq<bool>, lo: seq<bool>, u: nat, pad: nat)
    requires 0 < |hi| < 64 && |hi| + u == 64 && |hi| + |lo| + pad == 64 && 0 < pad
    ensures ToInt64(Num(Or(hi + Zeros(u), Zeros(64 - u) + lo + Zeros(pad)))) == Num(hi + lo)
  {
    var c := hi + lo + Zeros(pad);
    OrPadded(hi, lo, u, pad);
    assert |c| == 64 && !c[63];
    ToInt64Sign(c);
    PaddedNum(hi + lo, pad);
  }

  /** Zeros above the top bit do not change the value. */
  lemma PaddedNum(x: seq<bool>, pad: nat)
    ensures Num(x + Zeros(pad)) == Num(x)
  {
    NumAppend(x, Zeros(pad));
    NumZeros(pad);
  }

  /** An element that spills into the next word starts inside its first word
    * and is narrower than a word. */
  lemma CrossingPlace(bits: nat, index: nat, p: Place)
    requires 1 <= bits <= 64 && p == PlaceOf(bits, index) && p.s != p.e
    ensures 0 < p.u && 64 - p.u < bits < 64
  {
  }

  /** The high part of the first word, shifted down with zero fill, combined
    * with the low part of the next word, shifted up. */
  lemma OrPadded(hi: seq<bool>, lo: seq<bool>, u: nat, pad: nat)
    requires 0 < |hi| && |hi| + u == 64 && |hi| + |lo| + pad == 64 && 0 < pad
    ensures Or(hi + Zeros(u), Zeros(64 - u) + lo + Zeros(pad)) == hi + lo + Zeros(pad)
    ensures !(hi + lo + Zeros(pad))[63]
  {
    var a := hi + Zeros(u);
    var b := Zeros(64 - u) + lo + Zeros(pad);
    var c := hi + lo + Zeros(pad);
    forall i | 0 <= i < 64
      ensures Or(a, b)[i] == c[i]
    {
      if i < |hi| {
        assert a[i] == hi[i] && !b[i];
      } else if i < |hi| + |lo| {
        assert !a[i] && b[i] == lo[i - |hi|];
      } else {
        assert !a[i] && !b[i];
      }
    }
  }

  /** A concrete case: with 5-bit elements and word 0 all ones, element 12
    * reads as a negative number although its bits are `11110`. */
  lemma GetWordsSignExtends()
    ensures var ws: seq<Word> := [Ones(64), Zeros(64)];
      GetWords(ws, 5, 12) < 0 <= Num(Element(ws, 5, 12))
  {
    var ws: seq<Word> := [Ones(64), Zeros(64)];
    GetWordsReads(ws, 5, 12);
  }

  /** After the intended `Set`, the intended `Get` returns the value's low
    * `bits` bits (Go's `value & Max`), and every other element reads as
    * before. */
  lemma SetThenGetFixed(ws: seq<Word>, bits: nat, index: nat, value: int, j: nat)
    requires Fits(ws, bits, index) && Fits(ws, bits, j)
    ensures GetWordsFixed(SetWordsFixed(ws, bits, index, value), bits, index) == ToInt64(value % Pow2(bits))
    ensures j != index ==>
      GetWordsFixed(SetWordsFixed(ws, bits, index, value), bits, j) == GetWordsFixed(ws, bits, j)
  {
    var ws' := SetWordsFixed(ws, bits, index, value);
    SetWordsFixedElements(ws, bits, index, value, j);
    GetWordsFixedReads(ws', bits, index);
    GetWordsFixedReads(ws', bits, j);
    GetWordsFixedReads(ws, bits, j);
    NumBitsOf(value, bits);
  }

  /** When the element lies inside one word, `Get` after `Set`, both as
    * written, returns `value & Max` as a signed `int`: the value's low
    * `bits` bits below 64 bits, and every `int64` value itself at 64. */
  lemma SetThenGetInWord(ws: seq<Word>, bits: nat, index: nat, value: int)
    requires Fits(ws, bits, index) && PlaceOf(bits, index).s == PlaceOf(bits, index).e
    ensures GetWords(SetWords(ws, bits, index, value), bits, index) == ToInt64(value % Pow2(bits))
    ensures bits < 64 ==> GetWords(SetWords(ws, bits, index, value), bits, index) == value % Pow2(bits)
    ensures bits == 64 && -(Pow2(63) as int) <= value < Pow2(63) ==>
      GetWords(SetWords(ws, bits, index, value), bits, index) == value
  {
    var ws' := SetWords(ws, bits, index, value);
    SetWordsElements(ws, bits, index, value, index);
    GetWordsInWord(ws', bits, index, PlaceOf(bits, index));
    NumBitsOf(value, bits);
    if bits < 64 {
      ToInt64Narrow(value % Pow2(bits), bits);
    } else if -(Pow2(63) as int) <= value < Pow2(63) {
      ToInt64RoundTrip(value);
    }
  }

  /** Go's `(1 << bits) - 1` on a 64-bit `int`: the mask of the low `bits`
    * bits, which wraps to `-1` (all ones) from 64 bits on. */
  function MaxOf(bits: nat): (r: int)
    ensures bits < 64 ==> r == Pow2(bits) - 1
    ensures bits >= 64 ==> r == -1
  {
    if bits < 64 then Pow2(bits) - 1 else -1
  }

  /** Setting an element of a stream that is zero from that element on keeps
    * it zero after the element. */
  lemma SetWordsKeepsZeroTail(ws: seq<Word>, bits: nat, index: nat, value: int)
    requires Fits(ws, bits, index)
    requires forall k :: index * bits <= k < 64 * |ws| ==> !Flatten(ws)[k]
    ensures forall k :: (index + 1) * bits <= k < 64 * |ws| ==> !Flatten(SetWords(ws, bits, index, value))[k]
  {
    SetWordsOnZeroTail(ws, bits, index, value);
    SetWordsFixedSplice(ws, bits, index, value);
    var F, m := Flatten(ws), (index + 1) * bits;
    var G := Flatten(SetWordsFixed(ws, bits, index, value));
    forall k | m <= k < 64 * |ws|
      ensures !G[k]
    {
      assert G[k] == F[k];
    }
  }

  /** Inside one word, `Set` stores the value's bits in the element's window
    * of that word, and the window holds the element. */
  lemma SetInWordIs(ws: seq<Word>, bits: nat, index: nat, value: int, p: Place)
    requires Fits(ws, bits, index) && p == PlaceOf(bits, index) && p.s == p.e
    ensures p.s < |ws| && p.u + bits <= 64
    ensures ToInt64(Num(ws[p.s][p.u..p.u + bits])) == ToInt64(Num(Element(ws, bits, index)))
    ensures SetWords(ws, bits, index, value) == StoreIn(ws, p.s, p.u, BitsOf(value, bits))
  {
    ElementInWord(ws, bits, index, p);
  }

  /** The in-word store and read are `SetWords` and the element's value. */
  lemma SetInWordIsSet(ws: seq<Word>, after: seq<Word>, bits: nat, index: nat, value: int, p: Place, prev: int)
    requires Fits(ws, bits, index) && p == PlaceOf(bits, index) && p.s == p.e && p.s < |ws|
    requires p.u + |BitsOf(value, bits)| <= 64
    requires after == StoreIn(ws, p.s, p.u, BitsOf(value, bits))
    requires prev == ToInt64(Num(ws[p.s][p.u..p.u + |BitsOf(value, bits)|]))
    ensures after == SetWords(ws, bits, index, value)
    ensures prev == ToInt64(Num(Element(ws, bits, index)))
  {
    SetInWordIs(ws, bits, index, value, p);
  }

  /** The two-word store and read are `SetWords` and the element's value. */
  lemma SetAcrossIsSet(ws: seq<Word>, after: seq<Word>, bits: nat, index: nat, value: int, p: Place, prev: int)
    requires Fits(ws, bits, index) && p == PlaceOf(bits, index) && p.s != p.e
    requires p.s + 1 < |ws| && 0 < p.u < 64 && 64 - p.u < bits < 64
    requires after == StoreAcross(ws, p.s, p.u, BitsOf(value, bits) + Zeros(64 - p.u - 1))
    requires prev == Num(ws[p.s][p.u..] + ws[p.s + 1][..|BitsOf(value, bits)| - (64 - p.u)])
    ensures after == SetWords(ws, bits, index, value)
    ensures prev == ToInt64(Num(Element(ws, bits, index)))
  {
    SetAcrossIs(ws, bits, index, value, p);
  }

  /** Across two words, `Set` stores the value's bits in the top of word `s`
    * and the bottom of word `s + 1`, and the two parts hold the element,
    * which is narrower than 64 bits. */
  lemma SetAcrossIs(ws: seq<Word>, bits: nat, index: nat, value: int, p: Place)
    requires Fits(ws, bits, index) && p == PlaceOf(bits, index) && p.s != p.e
    ensures p.s + 1 < |ws| && p.e == p.s + 1 && 0 < p.u < 64 && 64 - p.u < bits < 64
    ensures Num(ws[p.s][p.u..] + ws[p.s + 1][..bits - (64 - p.u)]) == ToInt64(Num(Element(ws, bits, index)))
    ensures SetWords(ws, bits, index, value) == StoreAcross(ws, p.s, p.u, BitsOf(value, bits) + Zeros(64 - p.u - 1))
  {
    CrossingPlace(bits, index, p);
    ElementAcrossWords(ws, bits, index, p);
    ToInt64Narrow(Num(Element(ws, bits, index)), bits);
  }

  /** The stream of a fresh array is all zeros. */
  lemma FlattenZeros(ws: seq<Word>)
    requires forall j :: 0 <= j < |ws| ==> ws[j] == Zeros(64)
    ensures forall k :: 0 <= k < 64 * |ws| ==> !Flatten(ws)[k]
  {
    forall k | 0 <= k < 64 * |ws|
      ensures !Flatten(ws)[k]
    {
      assert Flatten(ws)[k] == ws[k / 64][k % 64];
    }
  }

  /** `CompactArray`: `count` elements of `bits` bits packed into 64-bit
    * words. An element may straddle two words. */
  class CompactArray {
    var values: array<Word>
    var bitsPerElement: nat
    var max: int

    /** `NewCompactArray`: all words zero. Go panics on a negative shift
      * amount and on a negative length. */
    constructor (bits: int, count: int)
      requires 0 <= bits && 0 <= CompactArrayLength(bits, count)
      ensures bitsPerElement == bits && max == MaxOf(bits)
      ensures fresh(values) && values.Length == CompactArrayLength(bits, count)
      ensures forall j :: 0 <= j < values.Length ==> values[j] == Zeros(64)
    {
      values := new Word[CompactArrayLength(bits, count)](j => Zeros(64));
      bitsPerElement := bits;
      max := MaxOf(bits);
    }

    /** `Set` (lines 25-53): stores `value & Max` as element `index` and
      * returns the element's previous value. Lines 27-30 locate the element
      * (`PlaceOf`); line 33 reads its bits from word `s`, line 36 stores the
      * value's low bits there, and when the element spills into word `e`
      * lines 44 and 47 read and store the rest. */
    method Set(index: nat, value: int) returns (prev: int)
      requires Fits(values[..], bitsPerElement, index)
      modifies values
      ensures values[..] == SetWords(old(values[..]), bitsPerElement, index, value)
      ensures prev == ToInt64(Num(Element(old(values[..]), bitsPerElement, index)))
    {
      var bits := bitsPerElement;
      ghost var ws: seq<Word> := values[..];
      var p := PlaceOf(bits, index);
      var vb := BitsOf(value, bits);
      if p.s == p.e {
        SetInWordIs(ws, bits, index, value, p);
        prev := SetWithin(p.s, p.u, vb);
        SetInWordIsSet(ws, values[..], bits, index, value, p, prev);
      } else {
        SetAcrossIs(ws, bits, index, value, p);
        prev := SetAcross(p.s, p.u, vb);
        SetAcrossIsSet(ws, values[..], bits, index, value, p, prev);
      }
    }

    /** Lines 33-36: an element within word `s` at offset `u`; the previous
    * value converts to a signed `int` (line 50). */
    method SetWithin(s: nat, u: nat, vb: seq<bool>) returns (prev: int)
      requires s < values.Length && u + |vb| <= 64
      modifies values
      ensures values[..] == StoreIn(old(values[..]), s, u, vb)
      ensures prev == ToInt64(Num(old(values[..])[s][u..u + |vb|]))
    {
      ghost var ws: seq<Word> := values[..];
      prev := ToInt64(Num(values[s][u..u + |vb|]));
      values[s] := values[s][..u] + vb + values[s][u + |vb|..];
      assert values[..] == StoreIn(ws, s, u, vb);
    }

    /** Lines 33-47: an element that starts at offset `u` of word `s` and
      * spills into word `s + 1`. */
    method SetAcross(s: nat, u: nat, vb: seq<bool>) returns (prev: int)
      requires s + 1 < values.Length && 0 < u < 64 && 64 - u < |vb| < 64
      modifies values
      ensures values[..] == StoreAcross(old(values[..]), s, u, vb + Zeros(64 - u - 1))
      ensures prev == Num(old(values[..])[s][u..] + old(values[..])[s + 1][..|vb| - (64 - u)])
    {
      ghost var ws: seq<Word> := values[..];
      var bits := |vb|;
      var z := 64 - u;
      var hi := values[s][u..];
      var lo := values[s + 1][..bits - z];
      prev := Num(hi);
      var w0: Word := values[s][..u] + vb[..z];
      values[s] := w0;
      prev := prev + Pow2(z) * Num(lo);
      var w1: Word := vb[z..] + Zeros(z - 1) + values[s + 1][bits - 1..];
      values[s + 1] := w1;
      NumAppend(hi, lo);
      StoreAcrossWords(ws, s, u, vb, w0, w1);
      assert values[..] == ws[s := w0][s + 1 := w1];
    }

    /** `Get` (lines 55-66), as written. */
    function Get(index: nat): (r: int)
      requires Fits(values[..], bitsPerElement, index)
      reads this, values
      ensures var p := PlaceOf(bitsPerElement, index);
        p.s == p.e ==> r == ToInt64(Num(Element(values[..], bitsPerElement, index)))
      ensures var p := PlaceOf(bitsPerElement, index);
        (p.s == p.e && bitsPerElement < 64) || (p.s != p.e && !values[p.s][63]) ==>
          r == Num(Element(values[..], bitsPerElement, index))
      ensures var p := PlaceOf(bitsPerElement, index);
        p.s != p.e && values[p.s][63] ==> r < 0
      ensures bitsPerElement == 64 ==> (r < 0 <==> Element(values[..], bitsPerElement, index)[63])
    {
      GetWordsReads(values[..], bitsPerElement, index);
      GetWords(values[..], bitsPerElement, index)
    }
  }
}
