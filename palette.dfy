/** A section's block palette (minecraft/chunk/palette.go): the distinct
  * block state ids of the section, the reverse map from id to palette
  * index, and the number of bits each palette index takes on the wire. */
module Palettes {
  import opened Bytes
  import Common
  import Writers

  /** The length of `indexMap`, one slot per block state id. */
  const IndexMapSize: nat := 11337

  /** `bits.Len`: the number of bits needed to write `n`, 0 for 0. */
  function BitLen(n: nat): (r: nat)
    ensures n == 0 <==> r == 0
    ensures n > 0 ==> Pow2(r - 1) <= n < Pow2(r)
    decreases n
  {
    if n == 0 then 0 else 1 + BitLen(n / 2)
  }

  /** A power of two is the lowest number of its bit length. */
  lemma {:induction false} PowerOfTwoLen(n: nat)
    requires n > 0
    ensures Common.IsPowerOfTwo(n) <==> n == Pow2(BitLen(n) - 1)
    decreases n
  {
    if n > 1 {
      PowerOfTwoLen(n / 2);
      if n % 2 == 1 {
        assert n != Pow2(BitLen(n) - 1) by {
          assert BitLen(n) >= 2;
          assert Pow2(BitLen(n) - 1) == 2 * Pow2(BitLen(n) - 2);
        }
      } else if n / 2 > 1 || n / 2 == 1 {
        assert Pow2(BitLen(n) - 1) == 2 * Pow2(BitLen(n / 2) - 1);
      }
    }
  }

  /** `computeBitsPerBlock`'s rule for `n` palette entries: 4 for none;
    * otherwise the bit length of `n`, plus one unless `n` is a power of
    * two, and never less than 4. This is one bit more than the indices
    * `0 .. n-1` need: the result is exactly 4 or `1 + ceil(log2 n)`. */
  function BitsPerBlock(n: nat): (r: nat)
    ensures 4 <= r
    ensures n < Pow2(r) && n <= Pow2(r - 1)
    ensures r > 4 ==> Pow2(r - 2) < n
    ensures n <= 8 ==> r == 4
  {
    if n == 0 then 4
    else
      var res := BitLen(n) + (if Common.IsPowerOfTwo(n) then 0 else 1);
      BitsPerBlockRule(n, res);
      if res < 4 then 4 else res
  }

  /** The arithmetic behind `BitsPerBlock`'s contract. */
  lemma BitsPerBlockRule(n: nat, res: nat)
    requires n > 0 && res == BitLen(n) + (if Common.IsPowerOfTwo(n) then 0 else 1)
    ensures var r := if res < 4 then 4 else res;
      n < Pow2(r) && n <= Pow2(r - 1) && (r > 4 ==> Pow2(r - 2) < n) && (n <= 8 ==> r == 4)
  {
    var b := BitLen(n);
    PowerOfTwoLen(n);
    assert res >= 1;
    assert Pow2(res) == 2 * Pow2(res - 1);
    if Common.IsPowerOfTwo(n) {
      assert n == Pow2(res - 1);
      if res >= 2 {
        assert Pow2(res - 1) == 2 * Pow2(res - 2);
      }
    } else {
      assert Pow2(res - 1) == Pow2(b);
      assert Pow2(res - 2) == Pow2(b - 1);
    }
    var r := if res < 4 then 4 else res;
    if res < 4 {
      Pow2Mono(res - 1, 3);
      Pow2Mono(res, 4);
    } else if res > 4 {
      Pow2Mono(3, res - 2);
      assert Pow2(3) == 8;
    }
  }

  /** The bits per block grow with the palette. */
  lemma BitsPerBlockMonotone(m: nat, n: nat)
    requires m <= n
    ensures BitsPerBlock(m) <= BitsPerBlock(n)
  {
    var a, b := BitsPerBlock(m), BitsPerBlock(n);
    if a > b {
      assert a - 2 >= b - 1;
      Pow2Mono(b - 1, a - 2);
    }
  }

  class Palette {
    var ids: seq<uint16>
    var indexMap: seq<int>
    var bitsPerBlock: byte

    /** `&palette{}`: no ids, every slot of `indexMap` zero. */
    constructor ()
      ensures ids == [] && indexMap == seq(IndexMapSize, _ => 0) && bitsPerBlock == 0
    {
      ids := [];
      indexMap := seq(IndexMapSize, _ => 0);
      bitsPerBlock := 0;
    }

    /** `computeBitsPerBlock`: only `bitsPerBlock` changes. A palette holds
      * distinct 16-bit ids, so there are at most 65536 of them. */
    method ComputeBitsPerBlock()
      requires |ids| <= 0x1_0000
      modifies this
      ensures bitsPerBlock == BitsPerBlock(|ids|)
      ensures ids == old(ids) && indexMap == old(indexMap)
    {
      var num := |ids|;
      if num == 0 {
        bitsPerBlock := 4;
      } else {
        var res := BitLen(num);
        if !Common.IsPowerOfTwo(num) {
          res := res + 1;
        }
        if res < 4 {
          res := 4;
        }
        assert num < Pow2(17) by {
          assert Pow2(16) == 0x1_0000 by { assert Pow2(8) == 256; Writers.Pow2Add(8, 8); }
        }
        assert res <= 18 by {
          if res > 18 {
            Pow2Mono(17, res - 2);
          }
        }
        bitsPerBlock := res;
      }
    }
  }
}
