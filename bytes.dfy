/** Fixed-width integers and their big-endian byte encodings.
  *
  * Go's fixed-width integers are modelled as subsets of `int`. Big-endian
  * encoding uses Dafny's Euclidean `/` and `%`, whose remainder is never
  * negative, so the encoding of a negative number is its two's complement
  * pattern, as `binary.BigEndian` and a Go conversion to an unsigned type give. */
module Bytes {
  type byte = b: int | 0 <= b < 0x100
  type int8 = v: int | -0x80 <= v < 0x80
  type uint16 = v: int | 0 <= v < 0x1_0000
  type int16 = v: int | -0x8000 <= v < 0x8000
  type uint32 = v: int | 0 <= v < 0x1_0000_0000
  type int32 = v: int | -0x8000_0000 <= v < 0x8000_0000
  type uint64 = v: int | 0 <= v < 0x1_0000_0000_0000_0000
  type int64 = v: int | -0x8000_0000_0000_0000 <= v < 0x8000_0000_0000_0000

  function Pow256(k: nat): (r: nat)
    ensures r >= 1
  {
    if k == 0 then 1 else 256 * Pow256(k - 1)
  }

  function Pow2(n: nat): (r: nat)
    ensures r >= 1
  {
    if n == 0 then 1 else 2 * Pow2(n - 1)
  }

  lemma {:induction false} Pow2Mono(i: nat, j: nat)
    requires i <= j
    ensures Pow2(i) <= Pow2(j)
    decreases j
  {
    if i < j {
      Pow2Mono(i, j - 1);
    }
  }

  /** The `k`-byte big-endian encoding of the low `8k` bits of `v`. */
  function BigEndian(v: int, k: nat): (r: seq<byte>)
    ensures |r| == k
    decreases k
  {
    if k == 0 then [] else BigEndian(v / 256, k - 1) + [v % 256]
  }

  /** The unsigned number whose big-endian encoding is `s`. */
  function Unsigned(s: seq<byte>): (r: nat)
    ensures r < Pow256(|s|)
  {
    if s == [] then 0 else Unsigned(s[..|s| - 1]) * 256 + s[|s| - 1]
  }

  /** The two's complement reading of a `k`-byte unsigned pattern `u`. */
  function Signed(u: int, k: nat): int
  {
    if u >= Pow256(k) / 2 then u - Pow256(k) else u
  }

  /** Go's conversion of `v` to a signed `k`-byte integer (wrap-around). */
  function Wrap(v: int, k: nat): int
  {
    Signed(v % Pow256(k), k)
  }

  /** Bitwise OR of two non-negative numbers, one bit at a time from the
    * least significant. */
  function BitOr(a: nat, b: nat): nat
    decreases a + b
  {
    if a == 0 then b
    else if b == 0 then a
    else 2 * BitOr(a / 2, b / 2) + (if a % 2 == 1 || b % 2 == 1 then 1 else 0)
  }

  /** OR-ing two numbers below `2^k` stays below `2^k`. */
  lemma {:induction false} BitOrBound(a: nat, b: nat, k: nat)
    requires a < Pow2(k) && b < Pow2(k)
    ensures BitOr(a, b) < Pow2(k)
  {
    if k > 0 && a != 0 && b != 0 {
      BitOrBound(a / 2, b / 2, k - 1);
    }
  }

  /** OR-ing a number below `2^k` into one whose low `k` bits are clear is
    * an addition. */
  lemma {:induction false} BitOrDisjoint(a: nat, b: nat, k: nat)
    requires a % Pow2(k) == 0 && b < Pow2(k)
    ensures BitOr(a, b) == a + b
  {
    if k > 0 && a != 0 && b != 0 {
      var q := a / Pow2(k);
      assert a == Pow2(k) * q;
      assert a == 2 * (Pow2(k - 1) * q);
      DivModUnique(a, 2, Pow2(k - 1) * q, 0);
      DivModUnique(a / 2, Pow2(k - 1), q, 0);
      BitOrDisjoint(a / 2, b / 2, k - 1);
    }
  }

  /** Concatenation is associative: what one append after another builds
    * is the first sequence followed by the two others. */
  lemma Append3<T>(a: seq<T>, b: seq<T>, c: seq<T>)
    ensures a + b + c == a + (b + c)
  {
  }

  /** A non-empty sequence is its prefix followed by its last element. */
  lemma InitLast<T>(s: seq<T>)
    requires s != []
    ensures s[..|s| - 1] + [s[|s| - 1]] == s
  {
  }

  /** Quotient and remainder are determined by `a == d * t + x`. */
  lemma DivModUnique(a: int, d: int, t: int, x: int)
    requires d > 0 && 0 <= x < d && a == d * t + x
    ensures a / d == t && a % d == x
  {
    var q, r := a / d, a % d;
    assert a == d * q + r;
    MulMonoIf(d, q + 1, t);
    MulMonoIf(d, t + 1, q);
  }

  /** `MulMono` without a precondition, for use where the case may be
    * impossible. */
  lemma MulMonoIf(d: int, a: int, b: int)
    ensures d > 0 && a <= b ==> d * a <= d * b
  {
    if d > 0 && a <= b {
      MulMono(d, a, b);
    }
  }

  lemma MulMono(d: int, a: int, b: int)
    requires d > 0 && a <= b
    ensures d * a <= d * b
  {
    assert d * b - d * a == d * (b - a);
  }

  /** Splitting off the low byte: the remainder modulo `256 * p` is the
    * remainder of the high part modulo `p`, shifted, plus the low byte. */
  lemma ModSplit(v: int, p: nat)
    requires p >= 1
    ensures v % (256 * p) == ((v / 256) % p) * 256 + v % 256
    ensures v / (256 * p) == (v / 256) / p
  {
    var q, r := v / 256, v % 256;
    var t, s := q / p, q % p;
    assert v == 256 * q + r;
    assert q == p * t + s;
    assert v == (256 * p) * t + (s * 256 + r) by {
      assert 256 * q == 256 * (p * t) + 256 * s;
      assert 256 * (p * t) == (256 * p) * t;
    }
    assert s * 256 + r < 256 * p by { MulMono(256, s, p - 1); }
    DivModUnique(v, 256 * p, t, s * 256 + r);
  }

  lemma {:induction false} UnsignedOfBigEndian(v: int, k: nat)
    ensures Unsigned(BigEndian(v, k)) == v % Pow256(k)
    decreases k
  {
    if k > 0 {
      var s := BigEndian(v, k);
      assert s[..k - 1] == BigEndian(v / 256, k - 1);
      UnsignedOfBigEndian(v / 256, k - 1);
      ModSplit(v, Pow256(k - 1));
    }
  }

  lemma {:induction false} BigEndianOfUnsigned(s: seq<byte>)
    ensures BigEndian(Unsigned(s), |s|) == s
  {
    if s != [] {
      var n := |s|;
      var u := Unsigned(s);
      assert u / 256 == Unsigned(s[..n - 1]) && u % 256 == s[n - 1]
        by { DivModUnique(u, 256, Unsigned(s[..n - 1]), s[n - 1]); }
      BigEndianOfUnsigned(s[..n - 1]);
      assert s == s[..n - 1] + [s[n - 1]];
    }
  }

  /** Encoding only looks at the low `8k` bits. */
  lemma {:induction false} BigEndianMod(v: int, k: nat)
    ensures BigEndian(v % Pow256(k), k) == BigEndian(v, k)
  {
    UnsignedOfBigEndian(v, k);
    BigEndianOfUnsigned(BigEndian(v, k));
  }

  lemma UnsignedRoundTrip(v: int, k: nat)
    requires 0 <= v < Pow256(k)
    ensures Unsigned(BigEndian(v, k)) == v
  {
    UnsignedOfBigEndian(v, k);
  }

  lemma SignedRoundTrip(v: int, k: nat)
    requires 0 < k && -(Pow256(k) / 2) <= v < Pow256(k) / 2
    ensures Signed(Unsigned(BigEndian(v, k)), k) == v
  {
    UnsignedOfBigEndian(v, k);
    var p := Pow256(k);
    assert p == 256 * Pow256(k - 1);
    if v < 0 {
      DivModUnique(v, p, -1, v + p);
    } else {
      DivModUnique(v, p, 0, v);
    }
  }

  /** The ASCII bytes of a string literal made of characters below 128. */
  function Ascii(s: string): (r: seq<byte>)
    requires forall i :: 0 <= i < |s| ==> s[i] < 128 as char
    ensures |r| == |s|
    ensures forall i :: 0 <= i < |s| ==> r[i] == s[i] as int
  {
    seq(|s|, i requires 0 <= i < |s| => s[i] as int)
  }
}
