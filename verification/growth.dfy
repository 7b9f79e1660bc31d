/**
 * The growth tick: on every period each memory's plant may advance one stage,
 * with a chance proportional to how well the current weather suits the plant.
 * The random draw and the timestamp are inputs.
 */
module Growth {
  import opened Types
  import opened Plants
  import Weather

  /** No field of the sample is negative. */
  predicate NonNegative(w: WeatherData) {
    0.0 <= w.temperature && 0.0 <= w.humidity && 0.0 <= w.sunlight
    && 0.0 <= w.windSpeed && 0.0 <= w.precipitation
  }

  /**
   * How well a weather sample suits a plant: each field, normalised, weighted by the
   * plant's factor. For a non-negative sample and factors in [0, 1] it is non-negative
   * and at most the unweighted sum of the normalised fields.
   */
  function WeatherMatch(w: WeatherData, f: GrowthFactors): (r: real)
    ensures NonNegative(w) && FactorsInUnit(f) ==>
      0.0 <= r <= w.temperature / 100.0 + w.humidity / 100.0 + w.sunlight / 100.0
                  + w.windSpeed / 15.0 + w.precipitation / 100.0
  {
    var t, h, s := w.temperature / 100.0, w.humidity / 100.0, w.sunlight / 100.0;
    var v, p := w.windSpeed / 15.0, w.precipitation / 100.0;
    WeightedSum(t, h, s, v, p, f);
    t * f.temperature + h * f.humidity + s * f.sunlight + v * f.windSpeed + p * f.precipitation
  }

  /** A sum of non-negative values, each weighted by a factor in [0, 1], lies between 0 and the plain sum. */
  lemma WeightedSum(t: real, h: real, s: real, v: real, p: real, f: GrowthFactors)
    ensures 0.0 <= t && 0.0 <= h && 0.0 <= s && 0.0 <= v && 0.0 <= p && FactorsInUnit(f) ==>
      0.0 <= t * f.temperature + h * f.humidity + s * f.sunlight + v * f.windSpeed + p * f.precipitation
          <= t + h + s + v + p
  {
    if 0.0 <= t && 0.0 <= h && 0.0 <= s && 0.0 <= v && 0.0 <= p && FactorsInUnit(f) {
      assert 0.0 <= t * f.temperature <= t by { Scaled(t, f.temperature); }
      assert 0.0 <= h * f.humidity <= h by { Scaled(h, f.humidity); }
      assert 0.0 <= s * f.sunlight <= s by { Scaled(s, f.sunlight); }
      assert 0.0 <= v * f.windSpeed <= v by { Scaled(v, f.windSpeed); }
      assert 0.0 <= p * f.precipitation <= p by { Scaled(p, f.precipitation); }
      SumBounds(t * f.temperature, h * f.humidity, s * f.sunlight, v * f.windSpeed, p * f.precipitation, t, h, s, v, p);
    }
  }

  /** Five values each in [0, its bound] sum to a value in [0, the sum of the bounds]. */
  lemma SumBounds(a: real, b: real, c: real, d: real, e: real, t: real, h: real, s: real, v: real, p: real)
    requires 0.0 <= a <= t && 0.0 <= b <= h && 0.0 <= c <= s && 0.0 <= d <= v && 0.0 <= e <= p
    ensures 0.0 <= a + b + c + d + e <= t + h + s + v + p
  {
  }

  /** Weighting a non-negative value by a factor in [0, 1] keeps it in [0, value]. */
  lemma Scaled(x: real, f: real)
    ensures 0.0 <= x && InUnit(f) ==> 0.0 <= x * f <= x
  {
    if 0.0 <= x && InUnit(f) {
      assert x * (1.0 - f) >= 0.0;
      assert x * f == x - x * (1.0 - f);
    }
  }

  /**
   * The growth draw succeeds when it falls under 8% of the weather match: a draw in
   * [0, 1) never succeeds for a non-positive match and always does once the match
   * reaches 12.5.
   */
  function ShouldGrow(draw: real, score: real): (b: bool)
    ensures IsDraw(draw) && score <= 0.0 ==> !b
    ensures IsDraw(draw) && score >= 12.5 ==> b
  {
    draw < score * 0.08
  }

  /**
   * For a catalog plant and any sample the feed produces, the match lies in [0, 4), so
   * the growth chance per tick stays below 32%: a draw of 0.32 or more never grows.
   */
  lemma GrowthChanceBelow(w: WeatherData, key: string, draw: real)
    requires key in PlantTypes
    requires Weather.InSampleRange(w)
    ensures 0.0 <= WeatherMatch(w, PlantTypes[key].growthFactors) < 4.0
    ensures draw >= 0.32 ==> !ShouldGrow(draw, WeatherMatch(w, PlantTypes[key].growthFactors))
  {
    CatalogShape();
  }

  /** A memory after one tick, and whether this tick brought its plant to full bloom. */
  datatype TickOutcome = TickOutcome(memory: Memory, bloomed: bool)

  /** One tick for one memory whose plant is `plant`, given the outcome of the growth draw. */
  function GrowMemory(m: Memory, plant: Plant, weather: WeatherData, shouldGrow: bool, now: string): (o: TickOutcome)
    // the stage never falls, and rises by at most one
    ensures m.growthStage <= o.memory.growthStage <= m.growthStage + 1
    // it rises exactly when the draw succeeds below the top stage
    ensures o.memory.growthStage == m.growthStage + 1 <==> shouldGrow && m.growthStage < MaxStage(plant)
    // it never passes the top stage
    ensures m.growthStage <= MaxStage(plant) ==> o.memory.growthStage <= MaxStage(plant)
    // bloom is reported exactly when this tick reaches the top stage
    ensures o.bloomed <==> o.memory.growthStage != m.growthStage && o.memory.growthStage == MaxStage(plant)
    // the sample is recorded on every tick; the timestamp only moves with the stage
    ensures o.memory.weatherData == Some(weather)
    ensures o.memory.updatedAt == if o.memory.growthStage != m.growthStage then now else m.updatedAt
    // nothing else changes
    ensures o.memory == m.(growthStage := o.memory.growthStage, weatherData := Some(weather), updatedAt := o.memory.updatedAt)
  {
    var maxStage := MaxStage(plant);
    if shouldGrow && m.growthStage < maxStage then
      var newStage := m.growthStage + 1;
      TickOutcome(m.(growthStage := newStage, weatherData := Some(weather), updatedAt := now), newStage == maxStage)
    else
      TickOutcome(m.(weatherData := Some(weather)), false)
  }

  /**
   * One tick for one catalog memory: look up its plant and draw for growth. The stage
   * rises by one exactly when the draw falls under 8% of the plant's weather match and
   * the plant is below its top stage; the timestamp moves exactly then, and bloom is
   * reported exactly when the rise reaches the top stage.
   */
  function TickMemory(m: Memory, weather: WeatherData, draw: real, now: string): (o: TickOutcome)
    requires m.plantType in PlantTypes
    ensures var plant := PlantTypes[m.plantType];
      var grows := draw < WeatherMatch(weather, plant.growthFactors) * 0.08 && m.growthStage < MaxStage(plant);
      && o.memory.growthStage == (if grows then m.growthStage + 1 else m.growthStage)
      && o.memory.updatedAt == (if grows then now else m.updatedAt)
      && (o.bloomed <==> grows && m.growthStage + 1 == MaxStage(plant))
      && o.memory == m.(growthStage := o.memory.growthStage, weatherData := Some(weather), updatedAt := o.memory.updatedAt)
  {
    var plant := PlantTypes[m.plantType];
    GrowMemory(m, plant, weather, ShouldGrow(draw, WeatherMatch(weather, plant.growthFactors)), now)
  }

  predicate AllInCatalog(ms: seq<Memory>) {
    forall i :: 0 <= i < |ms| ==> ms[i].plantType in PlantTypes
  }

  /** The memory list after one growth tick, and one bloom flag per memory. */
  datatype GrowthResult = GrowthResult(memories: seq<Memory>, bloomed: seq<bool>)

  /** One growth tick over the whole list, one draw per memory. */
  function GrowthTick(ms: seq<Memory>, weather: WeatherData, draws: seq<real>, now: string): (r: GrowthResult)
    requires AllInCatalog(ms)
    requires |draws| == |ms|
    ensures |r.memories| == |ms| && |r.bloomed| == |ms|
    ensures AllInCatalog(r.memories)
    ensures forall i :: 0 <= i < |ms| ==>
      var m, m' := ms[i], r.memories[i];
      && m'.id == m.id && m'.input == m.input && m'.plantType == m.plantType
      && m'.likes == m.likes && m'.createdAt == m.createdAt
      && m'.weatherData == Some(weather)
      && m.growthStage <= m'.growthStage <= m.growthStage + 1
      && (m.growthStage <= 4 ==> m'.growthStage <= 4)
      && (r.bloomed[i] <==> m'.growthStage == m.growthStage + 1 == 4)
    // memory i is ticked with draw i: it grows, and takes the new timestamp, exactly
    // when that draw falls under 8% of its plant's weather match below stage 4
    ensures forall i :: 0 <= i < |ms| ==>
      r.memories[i] == TickMemory(ms[i], weather, draws[i], now).memory
      && r.bloomed[i] == TickMemory(ms[i], weather, draws[i], now).bloomed
    ensures forall i :: 0 <= i < |ms| ==>
      var grows := draws[i] < WeatherMatch(weather, PlantTypes[ms[i].plantType].growthFactors) * 0.08
        && ms[i].growthStage < 4;
      && r.memories[i].growthStage == (if grows then ms[i].growthStage + 1 else ms[i].growthStage)
      && r.memories[i].updatedAt == (if grows then now else ms[i].updatedAt)
  {
    CatalogShape();
    var outcomes := seq(|ms|, i requires 0 <= i < |ms| => TickMemory(ms[i], weather, draws[i], now));
    GrowthResult(
      seq(|ms|, i requires 0 <= i < |ms| => outcomes[i].memory),
      seq(|ms|, i requires 0 <= i < |ms| => outcomes[i].bloomed))
  }

  /** What one tick of the growth timer sees for a memory: the current sample, the draw, the clock. */
  datatype Step = Step(weather: WeatherData, draw: real, now: string)

  /** A memory after a run of ticks, oldest first; its plant never changes. */
  function Grow(m: Memory, steps: seq<Step>): (r: Memory)
    requires m.plantType in PlantTypes
    ensures r.plantType == m.plantType && r.id == m.id && r.input == m.input
    ensures r.likes == m.likes && r.createdAt == m.createdAt
  {
    if |steps| == 0 then m
    else
      var m' := Grow(m, steps[..|steps| - 1]);
      var s := steps[|steps| - 1];
      TickMemory(m', s.weather, s.draw, s.now).memory
  }

  /** How many bloom events a run of ticks emits for a memory. */
  function BloomCount(m: Memory, steps: seq<Step>): nat
    requires m.plantType in PlantTypes
  {
    if |steps| == 0 then 0
    else
      var m' := Grow(m, steps[..|steps| - 1]);
      var s := steps[|steps| - 1];
      BloomCount(m, steps[..|steps| - 1]) + (if TickMemory(m', s.weather, s.draw, s.now).bloomed then 1 else 0)
  }

  /**
   * Over any run of ticks the stage never falls and never passes the plant's top
   * stage (4 for every catalog plant); the run ends at the top exactly when it bloomed
   * or started there.
   */
  lemma {:induction false} StageMonotone(m: Memory, steps: seq<Step>)
    requires m.plantType in PlantTypes
    requires m.growthStage <= MaxStage(PlantTypes[m.plantType])
    ensures m.growthStage <= Grow(m, steps).growthStage <= MaxStage(PlantTypes[m.plantType])
    ensures Grow(m, steps).growthStage == MaxStage(PlantTypes[m.plantType])
      <==> m.growthStage == MaxStage(PlantTypes[m.plantType]) || BloomCount(m, steps) > 0
  {
    if |steps| > 0 {
      StageMonotone(m, steps[..|steps| - 1]);
    }
  }

  /**
   * A memory blooms at most once over any run of ticks, never when it starts at or
   * above its top stage, and once it has bloomed it stays at the top stage.
   */
  lemma {:induction false} BloomsAtMostOnce(m: Memory, steps: seq<Step>)
    requires m.plantType in PlantTypes
    ensures BloomCount(m, steps) <= 1
    ensures m.growthStage >= MaxStage(PlantTypes[m.plantType]) ==> BloomCount(m, steps) == 0
    ensures m.growthStage <= Grow(m, steps).growthStage
    ensures BloomCount(m, steps) == 1 ==> Grow(m, steps).growthStage == MaxStage(PlantTypes[m.plantType])
  {
    if |steps| > 0 {
      var init := steps[..|steps| - 1];
      BloomsAtMostOnce(m, init);
    }
  }

  /** A hot, dry, cloudless sample: 90 degrees, 20% humidity, full sun, no wind or rain. */
  const HotSunnyDay := WeatherData(90.0, 20.0, 100.0, 0.0, 0.0, Summer)

  /**
   * A sunflower one stage short of full bloom, in the hot sunny sample, grows with
   * chance 0.1344 per tick: a draw under it brings the plant to stage 4 and reports the
   * bloom, a draw at or above it leaves the stage at 3.
   */
  lemma SunflowerBloomsInSun(m: Memory, draw: real, now: string)
    requires m.plantType == "sunflower"
    requires m.growthStage == 3
    ensures WeatherMatch(HotSunnyDay, PlantTypes["sunflower"].growthFactors) * 0.08 == 0.1344
    ensures var o := TickMemory(m, HotSunnyDay, draw, now);
      && (draw < 0.1344 ==> o.memory.growthStage == 4 && o.bloomed)
      && (draw >= 0.1344 ==> o.memory.growthStage == 3 && !o.bloomed)
  {
    CatalogShape();
  }
}
