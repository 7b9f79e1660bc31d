/**
 * The plant catalog, the emotion-to-plant resolver and the rare-plant picker.
 */
module Plants {
  import opened Types
  import opened Seqs

  // Stage glyphs, written as code points.
  const Seedling := "\U{1F331}"
  const Herb := "\U{1F33F}"
  const Sparkles := "\U{2728}"
  const Sunflower := "\U{1F33B}"
  const Hyacinth := "\U{1FABB}"
  const Blossom := "\U{1F338}"
  const Tree := "\U{1F333}"
  const Rose := "\U{1F339}"
  const Cactus := "\U{1F335}"
  const Crown := "\U{1F451}"

  /** The catalog, keyed by plant key. */
  const PlantTypes: map<string, Plant> := map[
    "sunflower" := Plant("Sunflower of Joy",
      [Seedling, Herb, Sunflower, Sunflower + Sparkles, Sunflower + "\U{1F31F}"],
      GrowthFactors(0.8, 0.3, 0.9, 0.2, 0.4), Common),
    "lavender" := Plant("Lavender of Peace",
      [Seedling, Herb, Hyacinth, Hyacinth + "\U{1F49C}", Hyacinth + Sparkles],
      GrowthFactors(0.6, 0.4, 0.7, 0.3, 0.3), Uncommon),
    "wildflower" := Plant("Wildflower of Adventure",
      [Seedling, Herb, Blossom, Blossom + "\U{1F98B}", Blossom + "\U{1F308}"],
      GrowthFactors(0.7, 0.6, 0.8, 0.5, 0.6), Common),
    "oak" := Plant("Oak of Nostalgia",
      [Seedling, Herb, Tree, Tree + "\U{1F342}", Tree + Crown],
      GrowthFactors(0.5, 0.7, 0.6, 0.4, 0.8), Rare),
    "rose" := Plant("Rose of Romance",
      [Seedling, Herb, Rose, Rose + "\U{1F495}", Rose + Crown],
      GrowthFactors(0.7, 0.5, 0.8, 0.2, 0.5), Uncommon),
    "cactus" := Plant("Cactus of Energy",
      [Seedling, Herb, Cactus, Cactus + "\U{26A1}", Cactus + "\U{1F525}"],
      GrowthFactors(0.9, 0.1, 0.9, 0.3, 0.1), Rare),
    "cherry" := Plant("Cherry Blossom of Renewal",
      [Seedling, Herb, Blossom, Blossom + Blossom, Blossom + Sparkles],
      GrowthFactors(0.6, 0.6, 0.7, 0.4, 0.7), Legendary)
  ]

  /** The catalog's keys in the order the catalog object enumerates them (declaration order). */
  const PlantKeys: seq<string> := ["sunflower", "lavender", "wildflower", "oak", "rose", "cactus", "cherry"]

  /** The highest stage index a plant can reach. */
  function MaxStage(p: Plant): int {
    |p.stages| - 1
  }

  predicate InUnit(x: real) {
    0.0 <= x <= 1.0
  }

  predicate FactorsInUnit(f: GrowthFactors) {
    InUnit(f.temperature) && InUnit(f.humidity) && InUnit(f.sunlight)
    && InUnit(f.windSpeed) && InUnit(f.precipitation)
  }

  /** The key order lists every catalog key exactly once and nothing else. */
  lemma PlantKeysEnumerateCatalog()
    ensures Distinct(PlantKeys)
    ensures |PlantKeys| == |PlantTypes| == 7
    ensures forall k :: k in PlantTypes <==> k in PlantKeys
  {
    assert PlantTypes.Keys == {"sunflower", "lavender", "wildflower", "oak", "rose", "cactus", "cherry"};
  }

  /** Every catalog plant has five stages (so its maximum stage is 4) and growth factors in [0, 1]. */
  lemma CatalogShape()
    ensures forall k :: k in PlantTypes ==> |PlantTypes[k].stages| == 5 && MaxStage(PlantTypes[k]) == 4
    ensures forall k :: k in PlantTypes ==> FactorsInUnit(PlantTypes[k].growthFactors)
  {
  }

  /** The plant key for an emotion; any string outside the table falls back to the sunflower. */
  function GetPlantByEmotion(emotion: string): (key: string)
    ensures key in PlantTypes
    ensures (forall e: Emotion :: emotion != e.Name()) ==> key == "sunflower"
  {
    if emotion == Joy.Name() then "sunflower"
    else if emotion == Peaceful.Name() then "lavender"
    else if emotion == Adventurous.Name() then "wildflower"
    else if emotion == Nostalgic.Name() then "oak"
    else if emotion == Romantic.Name() then "rose"
    else if emotion == Energetic.Name() then "cactus"
    else "sunflower"
  }

  /** The emotion table entry by entry. */
  lemma EmotionTable()
    ensures GetPlantByEmotion(Joy.Name()) == "sunflower"
    ensures GetPlantByEmotion(Peaceful.Name()) == "lavender"
    ensures GetPlantByEmotion(Adventurous.Name()) == "wildflower"
    ensures GetPlantByEmotion(Nostalgic.Name()) == "oak"
    ensures GetPlantByEmotion(Romantic.Name()) == "rose"
    ensures GetPlantByEmotion(Energetic.Name()) == "cactus"
  {
  }

  /**
   * Distinct emotions grow distinct plants, and the legendary cherry is never
   * an emotion's plant: it can only be reached through the rare draw.
   */
  lemma EmotionPlantsInjective(e1: Emotion, e2: Emotion)
    ensures e1 != e2 ==> GetPlantByEmotion(e1.Name()) != GetPlantByEmotion(e2.Name())
    ensures GetPlantByEmotion(e1.Name()) != "cherry"
  {
  }

  /** A catalog key whose rarity is rare or legendary. */
  predicate IsRareKey(key: string) {
    key in PlantTypes && PlantTypes[key].rarity in {Rare, Legendary}
  }

  /** The rare and legendary keys, in catalog order. */
  function RarePlants(): seq<string> {
    Filter(PlantKeys, IsRareKey)
  }

  /** The candidate list is exactly oak, cactus and cherry, in that order. */
  lemma RarePlantsAre()
    ensures RarePlants() == ["oak", "cactus", "cherry"]
  {
    RareSuffix3();
    CommonPrefix();
    FilterSkip(PlantKeys, IsRareKey, 3);
  }

  lemma CommonPrefix()
    ensures forall i :: 0 <= i < 3 ==> !IsRareKey(PlantKeys[i])
  {
    assert !IsRareKey(PlantKeys[0]) && !IsRareKey(PlantKeys[1]) && !IsRareKey(PlantKeys[2]);
  }

  lemma RareSuffix3()
    ensures Filter(PlantKeys[3..], IsRareKey) == ["oak", "cactus", "cherry"]
  {
    RareSuffix4();
    var ks := PlantKeys;
    assert IsRareKey(ks[3]);
    assert ks[3..][1..] == ks[4..];
  }

  lemma RareSuffix4()
    ensures Filter(PlantKeys[4..], IsRareKey) == ["cactus", "cherry"]
  {
    RareSuffix5();
    var ks := PlantKeys;
    assert !IsRareKey(ks[4]);
    assert ks[4..][1..] == ks[5..];
  }

  lemma RareSuffix5()
    ensures Filter(PlantKeys[5..], IsRareKey) == ["cactus", "cherry"]
  {
    var ks := PlantKeys;
    assert IsRareKey(ks[5]) && IsRareKey(ks[6]);
    assert ks[6..][1..] == [];
    assert ks[5..][1..] == ks[6..];
  }

  /** The index a uniform draw in [0, 1) selects among `n` candidates. */
  function PickIndex(draw: real, n: nat): (i: nat)
    requires IsDraw(draw)
    requires n > 0
    ensures i < n
    ensures i as real <= draw * n as real < i as real + 1.0
  {
    ScaledDraw(draw, n);
    (draw * n as real).Floor
  }

  lemma ScaledDraw(draw: real, n: nat)
    requires IsDraw(draw)
    requires n > 0
    ensures 0.0 <= draw * n as real < n as real
  {
    assert draw * n as real < 1.0 * n as real;
  }

  /** A uniformly drawn rare or legendary plant key. */
  function GetRandomRarePlant(draw: real): (key: string)
    requires IsDraw(draw)
    ensures key in PlantTypes
    ensures PlantTypes[key].rarity == Rare || PlantTypes[key].rarity == Legendary
    ensures key in {"oak", "cactus", "cherry"}
  {
    RarePlantsAre();
    RarePlants()[PickIndex(draw, |RarePlants()|)]
  }

  /** Candidate `i` is picked exactly for the draws in the band [i/n, (i+1)/n). */
  lemma PickIndexBand(draw: real, n: nat, i: nat)
    requires IsDraw(draw)
    requires i < n
    ensures PickIndex(draw, n) == i <==> i as real / n as real <= draw < (i + 1) as real / n as real
  {
    var j := PickIndex(draw, n);
    var x := draw * n as real;
    assert j == i <==> i as real <= x < i as real + 1.0 by {
      if i as real <= x < i as real + 1.0 {
        assert j < i + 1 && i < j + 1;
      }
    }
    DivBand(draw, n as real, i as real);
    DivBand(draw, n as real, (i + 1) as real);
  }

  lemma DivBand(d: real, n: real, a: real)
    requires n > 0.0
    ensures a / n <= d <==> a <= d * n
    ensures d < a / n <==> d * n < a
  {
  }

  /**
   * The pick is uniform: the candidate at index `i` is chosen exactly for the draws
   * in the band [i/n, (i+1)/n), so every rare plant can be discovered.
   */
  lemma RarePickBand(draw: real, i: nat)
    requires IsDraw(draw)
    requires i < |RarePlants()|
    ensures GetRandomRarePlant(draw) == RarePlants()[i]
      <==> i as real / |RarePlants()| as real <= draw < (i + 1) as real / |RarePlants()| as real
  {
    RarePlantsDistinct();
    PickBand(RarePlants(), draw, i);
  }

  lemma RarePlantsDistinct()
    ensures Distinct(RarePlants())
  {
    RarePlantsAre();
  }

  /** Among distinct candidates, the one at index `i` is picked exactly for the draws in its band. */
  lemma PickBand(candidates: seq<string>, draw: real, i: nat)
    requires IsDraw(draw)
    requires Distinct(candidates)
    requires i < |candidates|
    ensures candidates[PickIndex(draw, |candidates|)] == candidates[i]
      <==> i as real / |candidates| as real <= draw < (i + 1) as real / |candidates| as real
  {
    PickIndexBand(draw, |candidates|, i);
  }
}
