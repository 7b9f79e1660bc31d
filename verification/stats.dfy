/**
 * The garden statistics: how many memories and grown plants there are, the average
 * mood, the most frequent emotion and location, and the highest growth stage.
 */
module Stats {
  import opened Types
  import opened Seqs

  datatype GardenStats = GardenStats(
    totalMemories: nat,
    plantsGrown: nat,
    averageMood: real,
    mostCommonEmotion: string,
    longestGrowthStreak: int,
    favoriteLocation: string)

  /** How often `k` occurs in `keys`. */
  function Occurrences(keys: seq<string>, k: string): nat {
    if |keys| == 0 then 0
    else Occurrences(keys[..|keys| - 1], k) + (if keys[|keys| - 1] == k then 1 else 0)
  }

  /** One key of a tally and how often it was seen. */
  datatype Tally = Tally(key: string, count: nat)

  /** The keys of a tally, in order. */
  function KeysOf(t: seq<Tally>): (ks: seq<string>)
    ensures |ks| == |t| && forall j :: 0 <= j < |t| ==> ks[j] == t[j].key
  {
    seq(|t|, j requires 0 <= j < |t| => t[j].key)
  }

  /** Where `k` first occurs in `ks`, or `|ks|` when it does not. */
  function IndexOf(ks: seq<string>, k: string): (i: nat)
    ensures i <= |ks|
    ensures i < |ks| <==> k in ks
    ensures i < |ks| ==> ks[i] == k
    ensures forall j :: 0 <= j < i ==> ks[j] != k
  {
    if |ks| == 0 then 0
    else if ks[0] == k then 0
    else 1 + IndexOf(ks[1..], k)
  }

  /** Count one more sighting of `k`: in place when already tallied, otherwise as a new last entry. */
  function Bump(t: seq<Tally>, k: string): (t': seq<Tally>)
    requires Distinct(KeysOf(t))
    ensures KeysOf(t') == if k in KeysOf(t) then KeysOf(t) else KeysOf(t) + [k]
    ensures forall j :: 0 <= j < |t| ==> t'[j].count == t[j].count + (if t[j].key == k then 1 else 0)
    ensures k !in KeysOf(t) ==> t'[|t|].count == 1
  {
    var i := IndexOf(KeysOf(t), k);
    if i < |t| then
      var t' := t[i := t[i].(count := t[i].count + 1)];
      assert KeysOf(t') == KeysOf(t);
      assert forall j :: 0 <= j < |t| && j != i ==> t[j].key != k;
      t'
    else
      var t' := t + [Tally(k, 1)];
      assert KeysOf(t') == KeysOf(t) + [k];
      t'
  }

  /**
   * The tally of `keys` in the order each key was first seen: the counting object
   * the statistics build, enumerated in insertion order. Each key appears once.
   */
  function TallyOf(keys: seq<string>): (t: seq<Tally>)
    ensures Distinct(KeysOf(t))
  {
    if |keys| == 0 then []
    else
      var t := TallyOf(keys[..|keys| - 1]);
      BumpKeepsDistinct(t, keys[|keys| - 1]);
      Bump(t, keys[|keys| - 1])
  }

  lemma BumpKeepsDistinct(t: seq<Tally>, k: string)
    requires Distinct(KeysOf(t))
    ensures Distinct(KeysOf(Bump(t, k)))
  {
    if k !in KeysOf(t) {
      AppendDistinct(KeysOf(t), k);
    }
  }

  lemma {:induction false} OccurrencesAbsent(keys: seq<string>, k: string)
    requires k !in keys
    ensures Occurrences(keys, k) == 0
  {
    if |keys| > 0 {
      OccurrencesAbsent(keys[..|keys| - 1], k);
    }
  }

  /** The tally's keys are exactly the keys seen. */
  lemma {:induction false} TallyCovers(keys: seq<string>)
    ensures forall k :: k in KeysOf(TallyOf(keys)) <==> k in keys
  {
    if |keys| > 0 {
      var init := keys[..|keys| - 1];
      TallyCovers(init);
      assert keys == init + [keys[|keys| - 1]];
    }
  }

  /** Every tally entry carries the number of occurrences of its key. */
  lemma {:induction false} TallyCounts(keys: seq<string>)
    ensures forall j :: 0 <= j < |TallyOf(keys)| ==> TallyOf(keys)[j].count == Occurrences(keys, TallyOf(keys)[j].key)
  {
    if |keys| > 0 {
      var init, k := keys[..|keys| - 1], keys[|keys| - 1];
      var t := TallyOf(init);
      var t' := Bump(t, k);
      assert TallyOf(keys) == t';
      forall j | 0 <= j < |t'| ensures t'[j].count == Occurrences(keys, t'[j].key) {
        TallyCounts(init);
        TallyCovers(init);
        assert keys == init + [k];
        TallyEntryCount(init, k, t, t', j);
      }
    }
  }

  lemma TallyEntryCount(init: seq<string>, k: string, t: seq<Tally>, t': seq<Tally>, j: nat)
    requires forall x :: x in KeysOf(t) <==> x in init
    requires forall i :: 0 <= i < |t| ==> t[i].count == Occurrences(init, t[i].key)
    requires KeysOf(t') == if k in KeysOf(t) then KeysOf(t) else KeysOf(t) + [k]
    requires forall i :: 0 <= i < |t| ==> t'[i].count == t[i].count + (if t[i].key == k then 1 else 0)
    requires k !in KeysOf(t) ==> t'[|t|].count == 1
    requires j < |t'|
    ensures t'[j].count == Occurrences(init + [k], t'[j].key)
  {
    var keys := init + [k];
    assert keys[..|keys| - 1] == init;
    assert t'[j].key == KeysOf(t')[j];
    if j < |t| {
      assert t'[j].key == KeysOf(t)[j] == t[j].key;
    } else {
      assert k !in init;
      OccurrencesAbsent(init, k);
      assert t'[j].key == k;
    }
  }

  /**
   * The index of the first entry with the largest count: what sorting the tally by
   * descending count with a stable sort puts first.
   */
  function HeaviestIndex(t: seq<Tally>): (i: nat)
    requires |t| > 0
    ensures i < |t|
    ensures forall j :: 0 <= j < |t| ==> t[j].count <= t[i].count
    ensures forall j :: 0 <= j < i ==> t[j].count < t[i].count
  {
    if |t| == 1 then 0
    else
      var rest := HeaviestIndex(t[1..]);
      if t[0].count >= t[1..][rest].count then 0 else rest + 1
  }

  lemma {:induction false} IndexOfAppend(s: seq<string>, k: string, x: string)
    ensures x in s ==> IndexOf(s + [k], x) == IndexOf(s, x)
    ensures x !in s && x == k ==> IndexOf(s + [k], x) == |s|
  {
    if |s| > 0 {
      assert (s + [k])[1..] == s[1..] + [k];
      IndexOfAppend(s[1..], k, x);
    }
  }

  /** The tally lists its keys in the order of their first occurrence. */
  lemma {:induction false} TallyOrder(keys: seq<string>)
    ensures forall j, j' :: 0 <= j < j' < |TallyOf(keys)| ==>
      IndexOf(keys, TallyOf(keys)[j].key) < IndexOf(keys, TallyOf(keys)[j'].key)
  {
    if |keys| > 0 {
      var init, k := keys[..|keys| - 1], keys[|keys| - 1];
      TallyOrder(init);
      TallyCovers(init);
      var t := TallyOf(init);
      var t' := TallyOf(keys);
      assert t' == Bump(t, k);
      assert keys == init + [k];
      forall j, j' | 0 <= j < j' < |t'| ensures IndexOf(keys, t'[j].key) < IndexOf(keys, t'[j'].key) {
        TallyOrderStep(init, k, t, t', j, j');
      }
    }
  }

  lemma TallyOrderStep(init: seq<string>, k: string, t: seq<Tally>, t': seq<Tally>, j: nat, j': nat)
    requires forall x :: x in KeysOf(t) <==> x in init
    requires forall a, b :: 0 <= a < b < |t| ==> IndexOf(init, t[a].key) < IndexOf(init, t[b].key)
    requires KeysOf(t') == if k in KeysOf(t) then KeysOf(t) else KeysOf(t) + [k]
    requires j < j' < |t'|
    ensures IndexOf(init + [k], t'[j].key) < IndexOf(init + [k], t'[j'].key)
  {
    assert t'[j].key == KeysOf(t')[j] == KeysOf(t)[j] == t[j].key;
    assert t[j].key in init;
    IndexOfAppend(init, k, t[j].key);
    if j' < |t| {
      assert t'[j'].key == KeysOf(t')[j'] == KeysOf(t)[j'] == t[j'].key;
      assert t[j'].key in init;
      IndexOfAppend(init, k, t[j'].key);
    } else {
      assert t'[j'].key == KeysOf(t')[j'] == k;
      assert k !in init;
      IndexOfAppend(init, k, k);
    }
  }

  /**
   * No key occurs more often than `r`, and among the keys that occur as often as `r`,
   * `r` is seen first.
   */
  predicate MostFrequentFirst(keys: seq<string>, r: string) {
    && (forall i :: 0 <= i < |keys| ==> Occurrences(keys, keys[i]) <= Occurrences(keys, r))
    && (forall i :: 0 <= i < |keys| && Occurrences(keys, keys[i]) == Occurrences(keys, r) ==>
          IndexOf(keys, r) <= IndexOf(keys, keys[i]))
  }

  /**
   * The most frequent key, ties going to the key seen first; the empty string for no keys.
   */
  function MostCommon(keys: seq<string>): (r: string)
    ensures |keys| == 0 ==> r == ""
    ensures |keys| > 0 ==> r in keys
    ensures MostFrequentFirst(keys, r)
  {
    if |keys| == 0 then ""
    else
      HeaviestKey(keys);
      TallyOf(keys)[HeaviestIndex(TallyOf(keys))].key
  }

  /** The key at the heaviest tally entry is the most frequent key, and the first seen among equals. */
  lemma HeaviestKey(keys: seq<string>)
    requires |keys| > 0
    ensures var t := TallyOf(keys); var r := t[HeaviestIndex(t)].key;
      && r in keys
      && (forall i :: 0 <= i < |keys| ==> Occurrences(keys, keys[i]) <= Occurrences(keys, r))
      && (forall i :: 0 <= i < |keys| && Occurrences(keys, keys[i]) == Occurrences(keys, r) ==>
            IndexOf(keys, r) <= IndexOf(keys, keys[i]))
  {
    TallyCounts(keys);
    TallyCovers(keys);
    TallyOrder(keys);
    var t := TallyOf(keys);
    var h := HeaviestIndex(t);
    var ks := KeysOf(t);
    assert t[h].key == ks[h];
    forall i | 0 <= i < |keys|
      ensures Occurrences(keys, keys[i]) <= Occurrences(keys, t[h].key)
      ensures Occurrences(keys, keys[i]) == Occurrences(keys, t[h].key) ==> IndexOf(keys, t[h].key) <= IndexOf(keys, keys[i])
    {
      assert keys[i] in ks;
      var j :| 0 <= j < |ks| && ks[j] == keys[i];
      assert t[j].key == keys[i];
      assert t[j].count == Occurrences(keys, keys[i]);
      if Occurrences(keys, keys[i]) == t[h].count && j != h {
        assert h < j;
      }
    }
  }

  function Emotions(ms: seq<Memory>): (r: seq<string>)
    ensures |r| == |ms| && forall i :: 0 <= i < |ms| ==> r[i] == ms[i].input.emotion.Name()
  {
    seq(|ms|, i requires 0 <= i < |ms| => ms[i].input.emotion.Name())
  }

  function Locations(ms: seq<Memory>): (r: seq<string>)
    ensures |r| == |ms| && forall i :: 0 <= i < |ms| ==> r[i] == ms[i].input.location
  {
    seq(|ms|, i requires 0 <= i < |ms| => ms[i].input.location)
  }

  function SumMoods(ms: seq<Memory>): int {
    if |ms| == 0 then 0 else ms[0].input.mood + SumMoods(ms[1..])
  }

  /** The mean mood, or 0 for an empty garden: the number that, times the count, gives the mood total. */
  function AverageMood(ms: seq<Memory>): (r: real)
    ensures |ms| == 0 ==> r == 0.0
    ensures |ms| > 0 ==> r * |ms| as real == SumMoods(ms) as real
  {
    if |ms| > 0 then SumMoods(ms) as real / |ms| as real else 0.0
  }

  lemma {:induction false} SumMoodsBounds(ms: seq<Memory>, lo: int, hi: int)
    requires forall i :: 0 <= i < |ms| ==> lo <= ms[i].input.mood <= hi
    ensures |ms| * lo <= SumMoods(ms) <= |ms| * hi
  {
    if |ms| > 0 {
      SumMoodsBounds(ms[1..], lo, hi);
    }
  }

  /** When every mood lies in [lo, hi], so does the average of a non-empty garden. */
  lemma AverageMoodBounds(ms: seq<Memory>, lo: int, hi: int)
    requires |ms| > 0
    requires forall i :: 0 <= i < |ms| ==> lo <= ms[i].input.mood <= hi
    ensures lo as real <= AverageMood(ms) <= hi as real
  {
    SumMoodsBounds(ms, lo, hi);
    DivBounds(SumMoods(ms) as real, |ms| as real, lo as real, hi as real);
  }

  lemma DivBounds(s: real, n: real, lo: real, hi: real)
    requires n > 0.0
    requires n * lo <= s <= n * hi
    ensures lo <= s / n <= hi
  {
  }

  /** The highest growth stage in the garden, and never below 0. */
  function LongestGrowthStreak(ms: seq<Memory>): (r: int)
    ensures r >= 0
    ensures forall i :: 0 <= i < |ms| ==> ms[i].growthStage <= r
    ensures r == 0 || exists i :: 0 <= i < |ms| && ms[i].growthStage == r
  {
    if |ms| == 0 then 0
    else
      var rest := LongestGrowthStreak(ms[1..]);
      if ms[0].growthStage > rest then ms[0].growthStage else rest
  }

  /** A memory whose plant has left the seed stage. */
  predicate Grown(m: Memory) {
    m.growthStage > 0
  }

  /** How many memories have a plant past the seed stage: the length of the filtered list. */
  function PlantsGrown(ms: seq<Memory>): (n: nat)
    ensures n == CountWhere(ms, Grown)
    ensures n <= |ms|
    ensures n == 0 <==> forall i :: 0 <= i < |ms| ==> ms[i].growthStage <= 0
  {
    FilterLength(ms, Grown);
    |Filter(ms, Grown)|
  }

  /** The statistics block of the garden. */
  function GardenStatsOf(ms: seq<Memory>): (s: GardenStats)
    // the mean mood, as characterised by AverageMood
    ensures s.averageMood == AverageMood(ms)
    ensures s.totalMemories == |ms|
    ensures s.plantsGrown <= s.totalMemories
    ensures |ms| == 0 ==>
      && s.averageMood == 0.0 && s.longestGrowthStreak == 0
      && s.mostCommonEmotion == "" && s.favoriteLocation == "" && s.plantsGrown == 0
    ensures |ms| > 0 ==> exists i :: 0 <= i < |ms| && s.mostCommonEmotion == ms[i].input.emotion.Name()
    ensures |ms| > 0 ==> exists i :: 0 <= i < |ms| && s.favoriteLocation == ms[i].input.location
    ensures s.plantsGrown == CountWhere(ms, Grown)
    // the emotion and the location are each a most frequent one, and the first seen
    // among equally frequent ones
    ensures MostFrequentFirst(Emotions(ms), s.mostCommonEmotion)
    ensures MostFrequentFirst(Locations(ms), s.favoriteLocation)
    ensures forall i :: 0 <= i < |ms| ==> ms[i].growthStage <= s.longestGrowthStreak
    ensures s.longestGrowthStreak == 0 || exists i :: 0 <= i < |ms| && ms[i].growthStage == s.longestGrowthStreak
    // the highest stage, as characterised by LongestGrowthStreak, and so never below 0
    ensures s.longestGrowthStreak == LongestGrowthStreak(ms)
  {
    var es, ls := Emotions(ms), Locations(ms);
    GardenStats(
      |ms|,
      PlantsGrown(ms),
      AverageMood(ms),
      MostCommon(es),
      LongestGrowthStreak(ms),
      MostCommon(ls))
  }
}
