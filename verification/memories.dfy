/**
 * The memory list's two writers besides the growth tick: planting a new memory
 * (with the chance of a rare plant for a high mood) and liking a memory by id.
 * Random draws, the new id and the clock are inputs.
 */
module Memories {
  import opened Types
  import opened Plants
  import opened Seqs
  import Growth

  /** Moods from this value up may discover a rare plant. */
  const RareMood: int := 9

  /** The chance, for such a mood, that the draw discovers a rare plant. */
  const RareChance: real := 0.15

  /** The plant a new memory gets, and whether it was a rare discovery. */
  datatype Planting = Planting(plantType: string, rareDiscovered: bool)

  /**
   * The emotion's plant, unless the mood is high enough and the first draw falls under
   * the rare chance, in which case the second draw picks a rare or legendary plant.
   */
  function ChoosePlant(emotion: Emotion, mood: int, rareDraw: real, pickDraw: real): (p: Planting)
    requires IsDraw(pickDraw)
    ensures p.plantType in PlantTypes
    ensures p.rareDiscovered <==> mood >= RareMood && rareDraw < RareChance
    ensures !p.rareDiscovered ==> p.plantType == GetPlantByEmotion(emotion.Name())
    ensures p.rareDiscovered ==> PlantTypes[p.plantType].rarity in {Rare, Legendary}
    // a discovery plants the uniform pick among the rare and legendary plants
    ensures p.rareDiscovered ==> p.plantType == GetRandomRarePlant(pickDraw)
  {
    if mood >= RareMood && rareDraw < RareChance then Planting(GetRandomRarePlant(pickDraw), true)
    else Planting(GetPlantByEmotion(emotion.Name()), false)
  }

  /** The list after planting, and whether a rare plant was discovered. */
  datatype AddResult = AddResult(memories: seq<Memory>, rareDiscovered: bool)

  /**
   * Plant a memory: append a fresh record for the submitted input at the end of the
   * list. The clock is read once for each timestamp, so the two may differ.
   */
  function AddMemory(ms: seq<Memory>, input: MemoryInput, rareDraw: real, pickDraw: real, id: string,
      createdAt: string, updatedAt: string): (r: AddResult)
    requires IsDraw(pickDraw)
    ensures |r.memories| == |ms| + 1
    ensures r.memories[..|ms|] == ms
    ensures var m := r.memories[|ms|];
      && m.input == input && m.id == id
      && m.growthStage == 0 && m.likes == 0
      && m.weatherData == None
      && m.createdAt == createdAt && m.updatedAt == updatedAt
      && m.plantType in PlantTypes
    ensures r.rareDiscovered <==> input.mood >= RareMood && rareDraw < RareChance
    ensures input.mood < RareMood ==> r.memories[|ms|].plantType == GetPlantByEmotion(input.emotion.Name())
    ensures !r.rareDiscovered ==> r.memories[|ms|].plantType == GetPlantByEmotion(input.emotion.Name())
    ensures r.rareDiscovered ==> PlantTypes[r.memories[|ms|].plantType].rarity in {Rare, Legendary}
    ensures r.rareDiscovered ==> r.memories[|ms|].plantType == GetRandomRarePlant(pickDraw)
  {
    var p := ChoosePlant(input.emotion, input.mood, rareDraw, pickDraw);
    var m := Memory(input, id, p.plantType, 0, 0, None, createdAt, updatedAt);
    AddResult(ms + [m], p.rareDiscovered)
  }

  /**
   * Planting keeps every memory's plant in the catalog, so the growth tick stays
   * defined, and keeps every stage within its plant's range.
   */
  lemma AddKeepsGrowable(ms: seq<Memory>, input: MemoryInput, rareDraw: real, pickDraw: real, id: string,
      createdAt: string, updatedAt: string)
    requires IsDraw(pickDraw)
    requires Growth.AllInCatalog(ms)
    requires forall i :: 0 <= i < |ms| ==> 0 <= ms[i].growthStage <= MaxStage(PlantTypes[ms[i].plantType])
    ensures var r := AddMemory(ms, input, rareDraw, pickDraw, id, createdAt, updatedAt).memories;
      && Growth.AllInCatalog(r)
      && forall i :: 0 <= i < |r| ==> 0 <= r[i].growthStage <= MaxStage(PlantTypes[r[i].plantType])
  {
    CatalogShape();
    var r := AddMemory(ms, input, rareDraw, pickDraw, id, createdAt, updatedAt).memories;
    forall i | 0 <= i < |r|
      ensures r[i].plantType in PlantTypes && 0 <= r[i].growthStage <= MaxStage(PlantTypes[r[i].plantType])
    {
      if i < |ms| {
        assert r[i] == r[..|ms|][i] == ms[i];
      }
    }
  }

  /** A joyful memory with mood 5 always plants a sunflower seed with no likes. */
  lemma JoyfulMemoryPlantsSunflower(ms: seq<Memory>, input: MemoryInput, rareDraw: real, pickDraw: real, id: string,
      createdAt: string, updatedAt: string)
    requires IsDraw(pickDraw)
    requires input.emotion == Joy && input.mood == 5
    ensures var r := AddMemory(ms, input, rareDraw, pickDraw, id, createdAt, updatedAt);
      && !r.rareDiscovered
      && r.memories[|ms|].plantType == "sunflower"
      && r.memories[|ms|].growthStage == 0 && r.memories[|ms|].likes == 0
  {
    EmotionTable();
  }

  /** Like every memory whose id matches: one more like and a fresh timestamp; the others are untouched. */
  function LikeMemory(ms: seq<Memory>, memoryId: string, now: string): (r: seq<Memory>)
    ensures |r| == |ms|
    ensures forall i :: 0 <= i < |ms| && ms[i].id == memoryId ==>
      r[i] == ms[i].(likes := ms[i].likes + 1, updatedAt := now)
    ensures forall i :: 0 <= i < |ms| && ms[i].id != memoryId ==> r[i] == ms[i]
    ensures (forall i :: 0 <= i < |ms| ==> ms[i].id != memoryId) ==> r == ms
  {
    seq(|ms|, i requires 0 <= i < |ms| =>
      if ms[i].id == memoryId then ms[i].(likes := ms[i].likes + 1, updatedAt := now) else ms[i])
  }

  /** All likes in the garden. */
  function TotalLikes(ms: seq<Memory>): int {
    if |ms| == 0 then 0 else ms[0].likes + TotalLikes(ms[1..])
  }

  /** A like raises the garden's total by the number of memories carrying the id, and nothing else. */
  lemma {:induction false} LikeAddsMatches(ms: seq<Memory>, memoryId: string, now: string)
    ensures TotalLikes(LikeMemory(ms, memoryId, now)) == TotalLikes(ms) + CountWhere(ms, (m: Memory) => m.id == memoryId)
  {
    if |ms| > 0 {
      var r := LikeMemory(ms, memoryId, now);
      assert r[1..] == LikeMemory(ms[1..], memoryId, now);
      LikeAddsMatches(ms[1..], memoryId, now);
    }
  }
}
