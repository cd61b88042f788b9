/** A chunk section (minecraft/chunk/section.go): 4096 block state ids, the
  * number of them that are not air, and a cached palette. */
module Sections {
  import opened Bytes
  import opened Palettes

  const SectionVolume: nat := 4096

  /** The distinct elements of `s`, in the order they first occur. */
  function FirstOccurrences(s: seq<uint16>): (r: seq<uint16>)
    ensures |r| <= |s|
    decreases |s|
  {
    if s == [] then []
    else
      var d := FirstOccurrences(s[..|s| - 1]);
      if s[|s| - 1] in d then d else d + [s[|s| - 1]]
  }

  predicate NoDuplicates(s: seq<uint16>)
  {
    forall i, j :: 0 <= i < j < |s| ==> s[i] != s[j]
  }

  /** The position of the first occurrence of `x` in `s`. */
  function IndexOf(s: seq<uint16>, x: int): (r: nat)
    requires x in s
    ensures r < |s| && s[r] == x
    ensures forall k :: 0 <= k < r ==> s[k] != x
  {
    if s[0] == x then 0 else 1 + IndexOf(s[1..], x)
  }

  /** The palette holds every id of the section, each once. */
  lemma {:induction false} FirstOccurrencesElements(s: seq<uint16>)
    ensures NoDuplicates(FirstOccurrences(s))
    ensures forall x :: x in FirstOccurrences(s) <==> x in s
    decreases |s|
  {
    if s != [] {
      var p := s[..|s| - 1];
      FirstOccurrencesElements(p);
      assert s == p + [s[|s| - 1]];
    }
  }

  /** The first occurrence of an element of a prefix is in the prefix. */
  lemma IndexOfPrefix(s: seq<uint16>, n: nat, x: int)
    requires n <= |s| && x in s[..n]
    ensures IndexOf(s, x) == IndexOf(s[..n], x)
  {
    var i, j := IndexOf(s, x), IndexOf(s[..n], x);
    assert s[j] == x;
    assert s[..n][i] == x by {
      if i >= j {
        assert i == j;
      }
    }
  }

  /** The palette lists the ids in the order they first occur. */
  lemma {:induction false} FirstOccurrencesOrder(s: seq<uint16>, i: nat, j: nat)
    requires i < j < |FirstOccurrences(s)|
    ensures FirstOccurrences(s)[i] in s && FirstOccurrences(s)[j] in s
    ensures IndexOf(s, FirstOccurrences(s)[i]) < IndexOf(s, FirstOccurrences(s)[j])
    decreases |s|
  {
    var r := FirstOccurrences(s);
    FirstOccurrencesElements(s);
    var n := |s| - 1;
    var p := s[..n];
    var d := FirstOccurrences(p);
    FirstOccurrencesElements(p);
    assert r[i] in s && r[j] in s;
    assert r[i] == d[i] && r[i] in p;
    IndexOfPrefix(s, n, r[i]);
    if j < |d| {
      assert r[j] == d[j];
      IndexOfPrefix(s, n, r[j]);
      FirstOccurrencesOrder(p, i, j);
    } else {
      assert r[j] == s[n] && s[n] !in p;
      assert IndexOf(p, r[i]) < n;
    }
  }

  /** `indexMap` of a palette with ids `pids`: each id's palette position,
    * or -1 for an id the section does not use. */
  predicate MapsIndex(m: seq<int>, pids: seq<uint16>)
  {
    |m| == IndexMapSize
    && forall id: int :: 0 <= id < IndexMapSize ==>
      if id in pids then 0 <= m[id] < |pids| && pids[m[id]] == id else m[id] == -1
  }

  /** The palette of the ids `s`: what `generatePalette` computes. */
  ghost predicate Describes(p: Palette, s: seq<uint16>)
    reads p
  {
    p.ids == FirstOccurrences(s)
    && MapsIndex(p.indexMap, p.ids)
    && p.bitsPerBlock == BitsPerBlock(|p.ids|)
  }

  /** Every block's id is found through the index map. */
  lemma IndexMapFinds(s: seq<uint16>, m: seq<int>, k: nat)
    requires MapsIndex(m, FirstOccurrences(s)) && k < |s| && s[k] < IndexMapSize
    ensures 0 <= m[s[k]] < |FirstOccurrences(s)|
    ensures FirstOccurrences(s)[m[s[k]]] == s[k]
    ensures m[s[k]] == IndexOf(FirstOccurrences(s), s[k])
  {
    FirstOccurrencesElements(s);
    var pids := FirstOccurrences(s);
    assert s[k] in pids;
    var i, j := m[s[k]], IndexOf(pids, s[k]);
    assert pids[i] == s[k] && pids[j] == s[k];
  }

  /** The number of blocks that are not air (id 0). */
  function NonAir(s: seq<uint16>): (r: nat)
    ensures r <= |s|
    ensures r == 0 <==> forall k :: 0 <= k < |s| ==> s[k] == 0
  {
    if s == [] then 0
    else
      assert forall k :: 1 <= k < |s| ==> s[k] == s[1..][k - 1];
      (if s[0] != 0 then 1 else 0) + NonAir(s[1..])
  }

  /** Replacing one id changes the count by the air-ness of the two ids. */
  lemma {:induction false} NonAirUpdate(s: seq<uint16>, k: nat, v: uint16)
    requires k < |s|
    ensures NonAir(s[k := v]) == NonAir(s) - (if s[k] != 0 then 1 else 0) + (if v != 0 then 1 else 0)
    decreases |s|
  {
    if k > 0 {
      assert s[k := v][1..] == s[1..][k - 1 := v];
      NonAirUpdate(s[1..], k - 1, v);
    } else {
      assert s[k := v][1..] == s[1..];
    }
  }

  predicate AllIndexed(s: seq<uint16>)
  {
    forall k :: 0 <= k < |s| ==> s[k] < IndexMapSize
  }

  class Section {
    var blockCount: int
    var ids: seq<uint16>
    var palette: Palette?

    /** `&section{}`: all air, nothing cached. */
    constructor ()
      ensures blockCount == 0 && ids == seq(SectionVolume, _ => 0) && palette == null
    {
      blockCount := 0;
      ids := seq(SectionVolume, _ => 0);
      palette := null;
    }

    /** The section's own invariant: the count of non-air blocks is kept,
      * and a cached palette is the palette of the current ids. */
    ghost predicate Valid()
      reads this, palette
    {
      |ids| == SectionVolume
      && blockCount == NonAir(ids)
      && (palette != null ==> Describes(palette, ids))
    }

    /** The part of `Chunk.SetBlockState` that works on the section: the
      * count of non-air blocks follows the change of one id; unless that
      * leaves the section all air, the id is stored and the cached palette
      * dropped. A section left all air is discarded by the chunk as it is. */
    method Store(idx: nat, state: uint16)
      requires Valid() && idx < SectionVolume
      modifies this
      ensures blockCount == NonAir(old(ids)[idx := state])
      ensures blockCount != 0 ==> ids == old(ids)[idx := state] && palette == null && Valid()
      ensures blockCount == 0 ==> ids == old(ids) && palette == old(palette)
    {
      var oldState := ids[idx];
      NonAirUpdate(ids, idx, state);
      if oldState != 0 {
        if state == 0 {
          blockCount := blockCount - 1;
        }
      } else if state != 0 {
        blockCount := blockCount + 1;
      }
      if blockCount != 0 {
        ids := ids[idx := state];
        palette := null;
      }
    }

    /** `generatePalette`: returns the cached palette if there is one;
      * otherwise builds the palette of the ids, caches and returns it.
      * An id at or above `IndexMapSize` would index past `indexMap`. */
    method GeneratePalette() returns (p: Palette)
      requires Valid() && AllIndexed(ids)
      modifies this
      ensures Valid() && palette == p && Describes(p, ids)
      ensures ids == old(ids) && blockCount == old(blockCount)
      ensures old(palette) != null ==> p == old(palette)
      ensures old(palette) == null ==> fresh(p)
    {
      if palette != null {
        return palette;
      }
      p := new Palette();
      palette := p;
      var i := 0;
      while i < IndexMapSize
        invariant 0 <= i <= IndexMapSize && |p.indexMap| == IndexMapSize && p.ids == []
        invariant forall k :: 0 <= k < i ==> p.indexMap[k] == -1
        modifies p
      {
        p.indexMap := p.indexMap[i := -1];
        i := i + 1;
      }
      FillPalette(p);
      FirstOccurrencesElements(ids);
      assert |p.ids| <= 0x1_0000;
      p.ComputeBitsPerBlock();
    }

    /** The loop of `generatePalette` over the section's ids. */
    method FillPalette(p: Palette)
      requires |ids| == SectionVolume && AllIndexed(ids)
      requires p.ids == [] && |p.indexMap| == IndexMapSize
      requires forall k :: 0 <= k < IndexMapSize ==> p.indexMap[k] == -1
      modifies p
      ensures p.ids == FirstOccurrences(ids) && MapsIndex(p.indexMap, p.ids)
      ensures p.bitsPerBlock == old(p.bitsPerBlock)
    {
      var j := 0;
      assert ids[..0] == [];
      while j < |ids|
        invariant 0 <= j <= |ids|
        invariant p.ids == FirstOccurrences(ids[..j]) && MapsIndex(p.indexMap, p.ids)
        invariant p.bitsPerBlock == old(p.bitsPerBlock)
      {
        var id := ids[j];
        assert ids[..j + 1][..j] == ids[..j] && ids[..j + 1][j] == id;
        if p.indexMap[id] == -1 {
          p.indexMap := p.indexMap[id := |p.ids|];
          p.ids := p.ids + [id];
        }
        j := j + 1;
      }
      assert ids[..j] == ids;
    }
  }
}
