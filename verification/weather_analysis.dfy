/** Derived indices of one processed reading and the coarse patterns of a
    processed forecast (`DataProcessor.calculate_weather_indices` and the
    stability and precipitation parts of `DataProcessor.detect_weather_patterns`
    in data_processor.py). */
module WeatherAnalysis {
  import opened Common
  import opened DataProcessor

  // ---------------------------------------------------------------------------
  // Indices of one reading
  // ---------------------------------------------------------------------------

  /** The five-step comfort scale of the indices panel. */
  datatype ComfortLevel = Comfortable | Uncomfortable | Humid | Dry | Moderate {
    function Label(): string {
      match this
      case Comfortable => "Comfortable"
      case Uncomfortable => "Uncomfortable"
      case Humid => "Humid"
      case Dry => "Dry"
      case Moderate => "Moderate"
    }
  }

  /** What the indices panel shows. Air quality and UV index are fixed
      placeholders in `calculate_weather_indices`. */
  datatype Indices = Indices(heatIndex: real, comfortLevel: ComfortLevel, aqiStatus: string, uvIndex: string)

  const NotAvailable := "Data not available"

  /** The simplified heat index: the temperature itself below 27 °C, and from
      27 °C on the temperature shifted by one twentieth of the humidity's
      distance from 50 %, up when more humid and down when drier. */
  function HeatIndex(t: real, humidity: real): (hi: real)
    ensures t < 27.0 ==> hi == t
    ensures t >= 27.0 ==> (hi > t <==> humidity > 50.0) && (hi == t <==> humidity == 50.0)
    ensures t >= 27.0 ==> 20.0 * (hi - t) == humidity - 50.0
  {
    if t >= 27.0 then t + 0.5 * (humidity - 50.0) * 0.1 else t
  }

  /** At a fixed temperature the heat index never falls as humidity rises. */
  lemma HeatIndexMonotoneInHumidity(t: real, h1: real, h2: real)
    requires h1 <= h2
    ensures HeatIndex(t, h1) <= HeatIndex(t, h2)
  {
  }

  /** The comfort ladder, first match wins: 18–24 °C at 40–60 % is
      comfortable; below 18 °C or above 30 °C is uncomfortable; otherwise the
      humidity decides between humid (above 70 %), dry (below 30 %) and
      moderate. */
  function ComfortLevelOf(t: real, humidity: real): (c: ComfortLevel)
    ensures c == Comfortable <==> 18.0 <= t <= 24.0 && 40.0 <= humidity <= 60.0
    ensures c == Uncomfortable <==> (t < 18.0 || t > 30.0)
    ensures c == Humid <==> 18.0 <= t <= 30.0 && humidity > 70.0
    ensures c == Dry <==> 18.0 <= t <= 30.0 && humidity < 30.0
    ensures c == Moderate <==>
      && 18.0 <= t <= 30.0 && 30.0 <= humidity <= 70.0
      && !(t <= 24.0 && 40.0 <= humidity <= 60.0)
  {
    if 18.0 <= t <= 24.0 && 40.0 <= humidity <= 60.0 then Comfortable
    else if t < 18.0 || t > 30.0 then Uncomfortable
    else if humidity > 70.0 then Humid
    else if humidity < 30.0 then Dry
    else Moderate
  }

  /** `calculate_weather_indices`: nothing for a missing reading; otherwise
      the heat index and comfort level of its temperature and humidity. */
  function CalculateIndices(w: Option<CurrentWeather>): (r: Option<Indices>)
    ensures r.None? <==> w.None?
    ensures r.Some? ==>
      && r.value.heatIndex == HeatIndex(w.value.temperature, w.value.humidity)
      && r.value.comfortLevel == ComfortLevelOf(w.value.temperature, w.value.humidity)
      && r.value.aqiStatus == NotAvailable && r.value.uvIndex == NotAvailable
    ensures r.Some? ==> (r.value.heatIndex >= w.value.temperature <==> (w.value.temperature < 27.0 || w.value.humidity >= 50.0))
    ensures r.Some? && r.value.comfortLevel == Comfortable ==> r.value.heatIndex == w.value.temperature
  {
    match w
    case None => None
    case Some(c) =>
      Some(Indices(HeatIndex(c.temperature, c.humidity), ComfortLevelOf(c.temperature, c.humidity),
                   NotAvailable, NotAvailable))
  }

  // ---------------------------------------------------------------------------
  // Patterns of a forecast
  // ---------------------------------------------------------------------------

  /** How many kinds of weather the forecast passes through. */
  datatype Stability = Stable | Variable | HighlyVariable {
    function Label(): string {
      match this
      case Stable => "Stable"
      case Variable => "Variable"
      case HighlyVariable => "Highly Variable"
    }
  }

  /** How often rain is likely over the forecast. */
  datatype PrecipitationPattern = FrequentRain | OccasionalRain | MostlyDry {
    function Label(): string {
      match this
      case FrequentRain => "Frequent Rain"
      case OccasionalRain => "Occasional Rain"
      case MostlyDry => "Mostly Dry"
    }
  }

  datatype Patterns = Patterns(stability: Stability, precipitation: PrecipitationPattern)

  /** The distinct `weather_main` values of the rows (pandas `nunique`). */
  function DistinctMains(s: seq<ForecastPoint>): set<string> {
    set i | 0 <= i < |s| :: s[i].weatherMain
  }

  /** A row whose probability of precipitation is above 50 %. */
  predicate IsWet(p: ForecastPoint) {
    p.precipitationProbability > 50.0
  }

  /** The number of wet rows. */
  function WetCount(s: seq<ForecastPoint>): (n: nat)
    ensures n <= |s|
  {
    if |s| == 0 then 0 else WetCount(s[..|s| - 1]) + (if IsWet(s[|s| - 1]) then 1 else 0)
  }

  /** Stability from the number of distinct kinds of weather. */
  function StabilityOf(kinds: nat): (s: Stability)
    ensures s == Stable <==> kinds <= 2
    ensures s == Variable <==> 2 < kinds <= 4
    ensures s == HighlyVariable <==> kinds > 4
  {
    if kinds <= 2 then Stable else if kinds <= 4 then Variable else HighlyVariable
  }

  /** The precipitation pattern of `wet` wet rows out of `total`, from their
      ratio against 0.7 and 0.3. */
  function PrecipitationPatternOf(wet: nat, total: nat): (pp: PrecipitationPattern)
    requires 0 < total
    ensures pp == FrequentRain <==> 10 * wet > 7 * total
    ensures pp == OccasionalRain <==> 3 * total < 10 * wet <= 7 * total
    ensures pp == MostlyDry <==> 10 * wet <= 3 * total
  {
    var ratio := wet as real / total as real;
    RatioAbove(wet, total, 7);
    RatioAbove(wet, total, 3);
    if ratio > 0.7 then FrequentRain
    else if ratio > 0.3 then OccasionalRain
    else MostlyDry
  }

  /** Comparing a ratio with `k` tenths is comparing integers. */
  lemma RatioAbove(wet: nat, total: nat, k: nat)
    requires 0 < total
    ensures wet as real / total as real > k as real / 10.0 <==> 10 * wet > k * total
  {
  }

  /** `detect_weather_patterns` (stability and precipitation parts): nothing
      for an empty forecast; otherwise the stability of its distinct kinds of
      weather and the pattern of its wet rows. */
  method DetectPatterns(points: seq<ForecastPoint>) returns (r: Option<Patterns>)
    ensures r.None? <==> |points| == 0
    ensures r.Some? ==> r.value.stability == StabilityOf(|DistinctMains(points)|)
    ensures r.Some? ==> r.value.precipitation == PrecipitationPatternOf(WetCount(points), |points|)
  {
    if |points| == 0 {
      return None;
    }
    var kinds: set<string> := {};
    var wet: nat := 0;
    var i := 0;
    while i < |points|
      invariant 0 <= i <= |points|
      invariant kinds == DistinctMains(points[..i])
      invariant wet == WetCount(points[..i])
    {
      assert points[..i + 1][..i] == points[..i];
      assert DistinctMains(points[..i + 1]) == DistinctMains(points[..i]) + {points[i].weatherMain} by {
        var next := points[..i + 1];
        forall k | 0 <= k < i + 1
          ensures next[k].weatherMain in DistinctMains(points[..i]) + {points[i].weatherMain}
        {
          if k < i {
            assert next[k] == points[..i][k];
          }
        }
      }
      kinds := kinds + {points[i].weatherMain};
      if IsWet(points[i]) {
        wet := wet + 1;
      }
      i := i + 1;
    }
    assert points[..i] == points;
    r := Some(Patterns(StabilityOf(|kinds|), PrecipitationPatternOf(wet, |points|)));
  }

  /** A forecast never has more kinds of weather than rows. */
  lemma {:induction false} DistinctMainsBound(s: seq<ForecastPoint>)
    ensures |DistinctMains(s)| <= |s|
  {
    if |s| > 0 {
      var init := s[..|s| - 1];
      DistinctMainsBound(init);
      assert DistinctMains(s) <= DistinctMains(init) + {s[|s| - 1].weatherMain} by {
        forall k | 0 <= k < |s|
          ensures s[k].weatherMain in DistinctMains(init) + {s[|s| - 1].weatherMain}
        {
          if k < |s| - 1 {
            assert s[k] == init[k];
          }
        }
      }
      SubsetCardinality(DistinctMains(s), DistinctMains(init) + {s[|s| - 1].weatherMain});
    }
  }

  lemma SubsetCardinality<T>(a: set<T>, b: set<T>)
    requires a <= b
    ensures |a| <= |b|
  {
    assert b == a + (b - a);
  }

  /** A forecast of at most two rows is always stable. */
  lemma ShortForecastStable(s: seq<ForecastPoint>)
    requires |s| <= 2
    ensures StabilityOf(|DistinctMains(s)|) == Stable
  {
    DistinctMainsBound(s);
  }

  /** A forecast whose every row is wet counts every row. */
  lemma {:induction false} AllWetCount(s: seq<ForecastPoint>)
    requires forall i :: 0 <= i < |s| ==> IsWet(s[i])
    ensures WetCount(s) == |s|
  {
    if |s| > 0 {
      AllWetCount(s[..|s| - 1]);
    }
  }

  /** A non-empty forecast whose every row is wet shows frequent rain. */
  lemma AllWetIsFrequent(s: seq<ForecastPoint>)
    requires |s| > 0
    requires forall i :: 0 <= i < |s| ==> IsWet(s[i])
    ensures PrecipitationPatternOf(WetCount(s), |s|) == FrequentRain
  {
    AllWetCount(s);
  }
}
