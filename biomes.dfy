/** Biome similarity and the ocean tests (minecraft/biome/biomes.go). The
  * biome instances come from a generated table that is not part of this
  * model; the biomes the functions name are given as a `Named` value, and
  * a biome's identity, a pointer in the source, is its value here. */
module Biomes {
  /** `biome.Type`, in declaration order. */
  datatype BiomeType =
    | Ocean | Plains | Desert | Hills | Forest | Taiga | Swamp | River | Nether
    | Sky | Snow | MushroomIsland | Beach | Jungle | StoneBeach | Savanna | Mesa | Void

  /** A biome; its rainfall and temperature play no part here. */
  datatype Biome = Biome(id: nat, name: string, biomeType: BiomeType)

  /** The table entries the functions refer to by name. */
  datatype Named = Named(
    ocean: Biome, frozenOcean: Biome, warmOcean: Biome, lukewarmOcean: Biome, coldOcean: Biome,
    deepOcean: Biome, deepWarmOcean: Biome, deepLukewarmOcean: Biome, deepColdOcean: Biome,
    deepFrozenOcean: Biome, badlandsPlateau: Biome, woodedBadlandsPlateau: Biome)

  /** `AreSimilar`: the same biome; else, for the two badlands plateaus,
    * only each other; else the same type. */
  predicate AreSimilar(a: Biome, b: Biome, t: Named)
  {
    if a == b then true
    else if a == t.woodedBadlandsPlateau || a == t.badlandsPlateau then
      b == t.woodedBadlandsPlateau || b == t.badlandsPlateau
    else a.biomeType == b.biomeType
  }

  /** Every biome is similar to itself; a plateau only to the two plateaus;
    * any other biome to the biomes of its type. */
  lemma SimilarityCases(a: Biome, b: Biome, t: Named)
    ensures AreSimilar(a, a, t)
    ensures a == t.badlandsPlateau || a == t.woodedBadlandsPlateau ==>
      (AreSimilar(a, b, t) <==> b == t.badlandsPlateau || b == t.woodedBadlandsPlateau)
    ensures a != t.badlandsPlateau && a != t.woodedBadlandsPlateau ==>
      (AreSimilar(a, b, t) <==> a.biomeType == b.biomeType)
  {
  }

  /** Similarity is not symmetric: a biome of the plateaus' type that is
    * not a plateau is similar to a plateau, but not the other way round. */
  lemma SimilarityOneWay(x: Biome, t: Named)
    requires x != t.badlandsPlateau && x != t.woodedBadlandsPlateau
    requires x.biomeType == t.badlandsPlateau.biomeType
    ensures AreSimilar(x, t.badlandsPlateau, t) && !AreSimilar(t.badlandsPlateau, x, t)
  {
  }

  /** A 64-bit mask is modelled as the set of the positions of its one
    * bits: `|` is union, `&` intersection, and a mask is non-zero when the
    * set is not empty. `1 << id` on a 64-bit `int` has the one bit `id`,
    * and no bit at all for a shift of 64 or more. */
  function Bit(id: nat): (m: set<nat>)
  {
    if id < 64 then {id} else {}
  }

  function ShallowOceanBits(t: Named): set<nat>
  {
    Bit(t.ocean.id) + Bit(t.frozenOcean.id) + Bit(t.warmOcean.id) + Bit(t.lukewarmOcean.id) + Bit(t.coldOcean.id)
  }

  function DeepOceanBits(t: Named): set<nat>
  {
    Bit(t.deepOcean.id) + Bit(t.deepWarmOcean.id) + Bit(t.deepLukewarmOcean.id)
      + Bit(t.deepColdOcean.id) + Bit(t.deepFrozenOcean.id)
  }

  function OceanBits(t: Named): set<nat>
  {
    Bit(t.ocean.id) + Bit(t.frozenOcean.id) + Bit(t.warmOcean.id) + Bit(t.lukewarmOcean.id) + Bit(t.coldOcean.id)
      + Bit(t.deepOcean.id) + Bit(t.deepWarmOcean.id) + Bit(t.deepLukewarmOcean.id)
      + Bit(t.deepColdOcean.id) + Bit(t.deepFrozenOcean.id)
  }

  predicate IsShallowOcean(b: Biome, t: Named)
  {
    Bit(b.id) * ShallowOceanBits(t) != {}
  }

  predicate IsDeepOcean(b: Biome, t: Named)
  {
    Bit(b.id) * DeepOceanBits(t) != {}
  }

  predicate IsOceanic(b: Biome, t: Named)
  {
    Bit(b.id) * OceanBits(t) != {}
  }

  function ShallowIds(t: Named): set<nat>
  {
    {t.ocean.id, t.frozenOcean.id, t.warmOcean.id, t.lukewarmOcean.id, t.coldOcean.id}
  }

  function DeepIds(t: Named): set<nat>
  {
    {t.deepOcean.id, t.deepWarmOcean.id, t.deepLukewarmOcean.id, t.deepColdOcean.id, t.deepFrozenOcean.id}
  }

  /** `IsShallowOcean` is membership of the id in the five shallow ocean
    * ids, for an id below 64. */
  lemma ShallowOceanIds(b: Biome, t: Named)
    ensures IsShallowOcean(b, t) <==> b.id < 64 && b.id in ShallowIds(t)
  {
    if b.id < 64 && b.id in ShallowIds(t) {
      assert b.id in Bit(b.id) * ShallowOceanBits(t);
    }
  }

  /** `IsDeepOcean` is membership of the id in the five deep ocean ids, for
    * an id below 64. */
  lemma DeepOceanIds(b: Biome, t: Named)
    ensures IsDeepOcean(b, t) <==> b.id < 64 && b.id in DeepIds(t)
  {
    if b.id < 64 && b.id in DeepIds(t) {
      assert b.id in Bit(b.id) * DeepOceanBits(t);
    }
  }

  /** `oceanBits` is the union of the two masks, so a biome is oceanic
    * exactly when it is a shallow or a deep ocean. */
  lemma OceanicIsEither(b: Biome, t: Named)
    ensures OceanBits(t) == ShallowOceanBits(t) + DeepOceanBits(t)
    ensures IsOceanic(b, t) <==> IsShallowOcean(b, t) || IsDeepOcean(b, t)
  {
    var m := Bit(b.id);
    assert m * (ShallowOceanBits(t) + DeepOceanBits(t)) == m * ShallowOceanBits(t) + m * DeepOceanBits(t);
  }
}
