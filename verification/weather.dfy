/**
 * The simulated weather feed: a fixed starting sample, a fresh sample per tick drawn
 * from five uniform draws, the season of the calendar month, and a rolling history
 * of the last 24 samples.
 */
module Weather {
  import opened Types

  /** How many samples the history keeps. */
  const HistoryCapacity: nat := 24

  /** The sample the feed starts with, before its first tick. */
  const InitialWeather := WeatherData(75.0, 60.0, 80.0, 5.0, 10.0, Summer)

  datatype WeatherState = WeatherState(current: WeatherData, history: seq<WeatherData>)

  /** The feed's state at start-up: the fixed sample and an empty history. */
  function Initial(): (st: WeatherState)
    ensures st.current.temperature == 75.0 && st.current.humidity == 60.0
    ensures st.current.sunlight == 80.0 && st.current.windSpeed == 5.0
    ensures st.current.precipitation == 10.0 && st.current.season == Summer
    ensures st.history == []
    ensures InSampleRange(st.current)
  {
    WeatherState(InitialWeather, [])
  }

  /** The season of a zero-based calendar month. */
  function GetCurrentSeason(month: int): (s: Season)
    ensures s == Spring <==> 2 <= month <= 4
    ensures s == Summer <==> 5 <= month <= 7
    ensures s == Fall <==> 8 <= month <= 10
    ensures s == Winter <==> !(2 <= month <= 10)
  {
    if 2 <= month <= 4 then Spring
    else if 5 <= month <= 7 then Summer
    else if 8 <= month <= 10 then Fall
    else Winter
  }

  /**
   * On the months a calendar produces, the seasons are consecutive blocks of three
   * months starting with December: winter, spring, summer, fall.
   */
  lemma SeasonBlocks(month: int)
    requires 0 <= month < 12
    ensures GetCurrentSeason(month) == [Winter, Spring, Summer, Fall][((month + 1) % 12) / 3]
  {
  }

  /** The ranges a generated sample's fields lie in. */
  predicate InSampleRange(w: WeatherData) {
    && 65.0 <= w.temperature < 90.0
    && 40.0 <= w.humidity < 80.0
    && 60.0 <= w.sunlight < 100.0
    && 0.0 <= w.windSpeed < 15.0
    && 0.0 <= w.precipitation < 30.0
  }

  /** One uniform draw per numeric field of a sample. */
  datatype Draws = Draws(temperature: real, humidity: real, sunlight: real, windSpeed: real, precipitation: real)

  predicate ValidDraws(d: Draws) {
    IsDraw(d.temperature) && IsDraw(d.humidity) && IsDraw(d.sunlight)
    && IsDraw(d.windSpeed) && IsDraw(d.precipitation)
  }

  /** The sample a tick generates from its draws and the current month. */
  function NewSample(d: Draws, month: int): (w: WeatherData)
    requires ValidDraws(d)
    ensures 65.0 <= w.temperature < 90.0
    ensures 40.0 <= w.humidity < 80.0
    ensures 60.0 <= w.sunlight < 100.0
    ensures 0.0 <= w.windSpeed < 15.0
    ensures 0.0 <= w.precipitation < 30.0
    ensures InSampleRange(w)
    ensures w.season == GetCurrentSeason(month)
  {
    WeatherData(
      65.0 + d.temperature * 25.0,
      40.0 + d.humidity * 40.0,
      60.0 + d.sunlight * 40.0,
      d.windSpeed * 15.0,
      d.precipitation * 30.0,
      GetCurrentSeason(month))
  }

  /** The last `n` elements of `s`, or all of `s` when it is shorter. */
  function LastN<T>(s: seq<T>, n: nat): (r: seq<T>)
    ensures |r| == if |s| <= n then |s| else n
  {
    if |s| <= n then s else s[|s| - n..]
  }

  /**
   * One feed tick: the new sample becomes current and is appended to the history,
   * which first drops everything but its last 23 entries.
   */
  function Tick(st: WeatherState, sample: WeatherData): (st': WeatherState)
    ensures st'.current == sample
    ensures |st'.history| == if |st.history| + 1 <= HistoryCapacity then |st.history| + 1 else HistoryCapacity
    ensures st'.history[|st'.history| - 1] == sample
    ensures st'.history[..|st'.history| - 1] == st.history[|st.history| - (|st'.history| - 1)..]
  {
    WeatherState(sample, LastN(st.history, HistoryCapacity - 1) + [sample])
  }

  /** The feed after one tick per sample, in order. */
  function RunTicks(st: WeatherState, samples: seq<WeatherData>): WeatherState
  {
    if |samples| == 0 then st
    else Tick(RunTicks(st, samples[..|samples| - 1]), samples[|samples| - 1])
  }

  lemma TickHistory(st: WeatherState, sample: WeatherData)
    ensures Tick(st, sample).history == LastN(st.history, HistoryCapacity - 1) + [sample]
  {
  }

  lemma LastNAppend<T>(s: seq<T>, x: T, n: nat)
    ensures LastN(s, n) + [x] == LastN(s + [x], n + 1)
  {
    if |s| > n {
      assert (s + [x])[|s| + 1 - (n + 1)..] == s[|s| - n..] + [x];
    }
  }

  lemma LastNLastN<T>(s: seq<T>, m: nat, n: nat)
    requires m <= n
    ensures LastN(LastN(s, n), m) == LastN(s, m)
  {
  }

  /**
   * Whatever the ticks, the history is the last 24 entries of the old history
   * followed by the samples, in chronological order.
   */
  lemma {:induction false} HistoryAfterTicks(st: WeatherState, samples: seq<WeatherData>)
    requires |st.history| <= HistoryCapacity
    ensures RunTicks(st, samples).history == LastN(st.history + samples, HistoryCapacity)
  {
    if |samples| > 0 {
      var init, x := samples[..|samples| - 1], samples[|samples| - 1];
      HistoryAfterTicks(st, init);
      var h := st.history + init;
      assert h + [x] == st.history + samples;
      calc {
        RunTicks(st, samples).history;
        Tick(RunTicks(st, init), x).history;
        { TickHistory(RunTicks(st, init), x); }
        LastN(RunTicks(st, init).history, HistoryCapacity - 1) + [x];
        LastN(LastN(h, HistoryCapacity), HistoryCapacity - 1) + [x];
        { LastNLastN(h, HistoryCapacity - 1, HistoryCapacity); }
        LastN(h, HistoryCapacity - 1) + [x];
        { LastNAppend(h, x, HistoryCapacity - 1); }
        LastN(h + [x], HistoryCapacity);
      }
    } else {
      assert st.history + samples == st.history;
    }
  }

  /**
   * From start-up, after n ticks the history holds exactly the most recent min(n, 24)
   * samples in chronological order, never more than 24, and the current sample is the last one.
   */
  lemma HistoryFromStart(samples: seq<WeatherData>)
    ensures |RunTicks(Initial(), samples).history| <= HistoryCapacity
    ensures RunTicks(Initial(), samples).history == LastN(samples, HistoryCapacity)
    ensures |samples| > 0 ==> RunTicks(Initial(), samples).current == samples[|samples| - 1]
  {
    HistoryAfterTicks(Initial(), samples);
    assert Initial().history + samples == samples;
  }
}
