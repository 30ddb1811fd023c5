/** The manual-input scorer of the dashboard (`get_instant_predictions` and
    `create_manual_weather_data` in app.py): four readings — temperature in
    °C, relative humidity in %, pressure in hPa, wind speed in m/s — become a
    temperature class, a comfort label, an integer storm score with its tier
    and an integer rain score with its tier, each label with a fixed colour. */
module InstantScoring {
  import opened Common
  import opened DataProcessor

  // ---------------------------------------------------------------------------
  // Temperature class
  // ---------------------------------------------------------------------------

  /** The six temperature classes, coldest first. */
  datatype TemperatureClass = Freezing | Cold | Cool | Moderate | Hot | ExtremeHeat {
    /** Position on the scale, coldest 0. */
    function Rank(): nat {
      match this
      case Freezing => 0
      case Cold => 1
      case Cool => 2
      case Moderate => 3
      case Hot => 4
      case ExtremeHeat => 5
    }

    /** Lowest temperature of the class (closed), if it has one. */
    function Lower(): Option<real> {
      match this
      case Freezing => None
      case Cold => Some(0.0)
      case Cool => Some(10.0)
      case Moderate => Some(20.0)
      case Hot => Some(30.0)
      case ExtremeHeat => Some(40.0)
    }

    /** First temperature above the class (open), if it has one. */
    function Upper(): Option<real> {
      match this
      case Freezing => Some(0.0)
      case Cold => Some(10.0)
      case Cool => Some(20.0)
      case Moderate => Some(30.0)
      case Hot => Some(40.0)
      case ExtremeHeat => None
    }

    function Label(): string {
      match this
      case Freezing => "Freezing"
      case Cold => "Cold"
      case Cool => "Cool"
      case Moderate => "Moderate"
      case Hot => "Hot"
      case ExtremeHeat => "Extreme Heat"
    }

    function Colour(): Colour {
      match this
      case Freezing => Blue
      case Cold => LightBlue
      case Cool => Green
      case Moderate => Orange
      case Hot => Red
      case ExtremeHeat => DarkRed
    }
  }

  /** The half-open band `[Lower, Upper)` of class `c` contains `t`. */
  predicate InBand(c: TemperatureClass, t: real) {
    && (c.Lower().None? || c.Lower().value <= t)
    && (c.Upper().None? || t < c.Upper().value)
  }

  /** The temperature ladder, first match wins. */
  function ClassifyTemperature(t: real): (c: TemperatureClass)
    ensures InBand(c, t)
  {
    if t < 0.0 then Freezing
    else if t < 10.0 then Cold
    else if t < 20.0 then Cool
    else if t < 30.0 then Moderate
    else if t < 40.0 then Hot
    else ExtremeHeat
  }

  /** The bands do not overlap, so a temperature's band names its class. */
  lemma ClassifyTemperatureByBand(c: TemperatureClass, t: real)
    ensures ClassifyTemperature(t) == c <==> InBand(c, t)
  {
  }

  /** Each band is closed on its lower bound. */
  lemma TemperatureBoundaries()
    ensures ClassifyTemperature(-0.5) == Freezing
    ensures ClassifyTemperature(0.0) == Cold
    ensures ClassifyTemperature(10.0) == Cool
    ensures ClassifyTemperature(20.0) == Moderate
    ensures ClassifyTemperature(30.0) == Hot
    ensures ClassifyTemperature(40.0) == ExtremeHeat
  {
  }

  /** Warmer never gives a colder class. */
  lemma ClassifyTemperatureMonotone(t1: real, t2: real)
    requires t1 <= t2
    ensures ClassifyTemperature(t1).Rank() <= ClassifyTemperature(t2).Rank()
  {
  }

  // ---------------------------------------------------------------------------
  // Comfort
  // ---------------------------------------------------------------------------

  datatype Comfort = Perfect | Comfortable | Fair | Uncomfortable {
    function Label(): string {
      match this
      case Perfect => "Perfect"
      case Comfortable => "Comfortable"
      case Fair => "Fair"
      case Uncomfortable => "Uncomfortable"
    }

    function Colour(): Colour {
      match this
      case Perfect => Green
      case Comfortable => LightGreen
      case Fair => Yellow
      case Uncomfortable => Orange
    }
  }

  /** 18–24 °C, 40–60 %, 1010–1020 hPa and at most 10 m/s of wind. */
  predicate PerfectWindow(t: real, humidity: real, pressure: real, wind: real) {
    18.0 <= t <= 24.0 && 40.0 <= humidity <= 60.0 && 1010.0 <= pressure <= 1020.0 && wind <= 10.0
  }

  /** 15–28 °C at 30–70 %. */
  predicate ComfortableWindow(t: real, humidity: real) {
    15.0 <= t <= 28.0 && 30.0 <= humidity <= 70.0
  }

  /** Above 35 °C or above 80 %. */
  predicate Oppressive(t: real, humidity: real) {
    t > 35.0 || humidity > 80.0
  }

  /** The comfort ladder, first match wins. */
  function ClassifyComfort(t: real, humidity: real, pressure: real, wind: real): (c: Comfort)
    ensures c == Perfect <==> PerfectWindow(t, humidity, pressure, wind)
    ensures c == Comfortable <==> ComfortableWindow(t, humidity) && !PerfectWindow(t, humidity, pressure, wind)
    ensures c == Uncomfortable <==> !ComfortableWindow(t, humidity) && Oppressive(t, humidity)
    ensures c == Fair <==> !ComfortableWindow(t, humidity) && !Oppressive(t, humidity)
  {
    if PerfectWindow(t, humidity, pressure, wind) then Perfect
    else if ComfortableWindow(t, humidity) then Comfortable
    else if Oppressive(t, humidity) then Uncomfortable
    else Fair
  }

  /** The perfect window lies inside the comfortable one, so Fair and
      Uncomfortable are given exactly to readings outside the comfortable
      window, whatever pressure and wind. */
  lemma ComfortOutsideWindow(t: real, humidity: real, pressure: real, wind: real)
    ensures PerfectWindow(t, humidity, pressure, wind) ==> ComfortableWindow(t, humidity)
    ensures ClassifyComfort(t, humidity, pressure, wind) in {Fair, Uncomfortable} <==> !ComfortableWindow(t, humidity)
  {
  }

  // ---------------------------------------------------------------------------
  // Storm score
  // ---------------------------------------------------------------------------

  function StormPressureTerm(pressure: real): int {
    if pressure < 1000.0 then 40 else if pressure < 1010.0 then 20 else 0
  }

  function StormWindTerm(wind: real): int {
    if wind > 15.0 then 30 else if wind > 10.0 then 15 else 0
  }

  function StormHumidityTerm(humidity: real): int {
    if humidity > 85.0 then 20 else if humidity > 70.0 then 10 else 0
  }

  /** The storm score: the three terms summed and capped at 100. The terms
      add up to at most 90, so the cap never bites. */
  function StormScore(pressure: real, wind: real, humidity: real): (s: int)
    ensures 0 <= s <= 90
    ensures s == StormPressureTerm(pressure) + StormWindTerm(wind) + StormHumidityTerm(humidity)
  {
    var sum := StormPressureTerm(pressure) + StormWindTerm(wind) + StormHumidityTerm(humidity);
    if sum < 100 then sum else 100
  }

  /** Lower pressure, stronger wind or higher humidity never lowers the score. */
  lemma StormScoreMonotone(p1: real, w1: real, h1: real, p2: real, w2: real, h2: real)
    requires p2 <= p1 && w1 <= w2 && h1 <= h2
    ensures StormScore(p1, w1, h1) <= StormScore(p2, w2, h2)
  {
  }

  /** A pressure of exactly 1000 hPa falls in the middle pressure band. */
  lemma StormPressureBoundary(wind: real, humidity: real)
    ensures StormScore(1000.0, wind, humidity) == 20 + StormWindTerm(wind) + StormHumidityTerm(humidity)
  {
  }

  datatype StormLevel = NoRisk | LowRisk | MediumRisk | HighRisk {
    function Rank(): nat {
      match this
      case NoRisk => 0
      case LowRisk => 1
      case MediumRisk => 2
      case HighRisk => 3
    }

    function Label(): string {
      match this
      case NoRisk => "No Risk"
      case LowRisk => "Low Risk"
      case MediumRisk => "Medium Risk"
      case HighRisk => "High Risk"
    }

    function Colour(): Colour {
      match this
      case NoRisk => Green
      case LowRisk => Yellow
      case MediumRisk => Orange
      case HighRisk => Red
    }
  }

  /** The storm tier of a score: above 70, 40 and 15. */
  function StormTier(score: int): (level: StormLevel)
    ensures level == HighRisk <==> score > 70
    ensures level == MediumRisk <==> 40 < score <= 70
    ensures level == LowRisk <==> 15 < score <= 40
    ensures level == NoRisk <==> score <= 15
  {
    if score > 70 then HighRisk
    else if score > 40 then MediumRisk
    else if score > 15 then LowRisk
    else NoRisk
  }

  /** A higher score never gives a lower tier. */
  lemma StormTierMonotone(s1: int, s2: int)
    requires s1 <= s2
    ensures StormTier(s1).Rank() <= StormTier(s2).Rank()
  {
  }

  /** High storm risk needs pressure below 1000 hPa together with either
      wind above 15 m/s and humidity above 70 %, or wind above 10 m/s and
      humidity above 85 %. */
  lemma StormHighRiskExactly(pressure: real, wind: real, humidity: real)
    ensures StormTier(StormScore(pressure, wind, humidity)) == HighRisk <==>
      pressure < 1000.0 && ((wind > 15.0 && humidity > 70.0) || (wind > 10.0 && humidity > 85.0))
  {
  }

  // ---------------------------------------------------------------------------
  // Rain score
  // ---------------------------------------------------------------------------

  function RainHumidityTerm(humidity: real): int {
    if humidity > 80.0 then 40 else if humidity > 65.0 then 20 else 0
  }

  function RainPressureTerm(pressure: real): int {
    if pressure < 1005.0 then 30 else if pressure < 1013.0 then 15 else 0
  }

  function RainWindTerm(wind: real): int {
    if wind > 12.0 then 20 else if wind > 8.0 then 10 else 0
  }

  /** The rain score: the three terms summed and capped at 100; at most 90. */
  function RainScore(humidity: real, pressure: real, wind: real): (s: int)
    ensures 0 <= s <= 90
    ensures s == RainHumidityTerm(humidity) + RainPressureTerm(pressure) + RainWindTerm(wind)
  {
    var sum := RainHumidityTerm(humidity) + RainPressureTerm(pressure) + RainWindTerm(wind);
    if sum < 100 then sum else 100
  }

  /** Higher humidity, lower pressure or stronger wind never lowers the score. */
  lemma RainScoreMonotone(h1: real, p1: real, w1: real, h2: real, p2: real, w2: real)
    requires h1 <= h2 && p2 <= p1 && w1 <= w2
    ensures RainScore(h1, p1, w1) <= RainScore(h2, p2, w2)
  {
  }

  datatype RainLevel = Unlikely | Possible | Likely | VeryLikely {
    function Rank(): nat {
      match this
      case Unlikely => 0
      case Possible => 1
      case Likely => 2
      case VeryLikely => 3
    }

    function Label(): string {
      match this
      case Unlikely => "Unlikely"
      case Possible => "Possible"
      case Likely => "Likely"
      case VeryLikely => "Very Likely"
    }

    function Colour(): Colour {
      match this
      case Unlikely => Green
      case Possible => LightGray
      case Likely => LightBlue
      case VeryLikely => Blue
    }
  }

  /** The rain tier of a score: above 70, 50 and 30. */
  function RainTier(score: int): (level: RainLevel)
    ensures level == VeryLikely <==> score > 70
    ensures level == Likely <==> 50 < score <= 70
    ensures level == Possible <==> 30 < score <= 50
    ensures level == Unlikely <==> score <= 30
  {
    if score > 70 then VeryLikely
    else if score > 50 then Likely
    else if score > 30 then Possible
    else Unlikely
  }

  /** Rain is very likely exactly when humidity is above 80 % and either the
      pressure is below 1005 hPa with wind above 8 m/s, or below 1013 hPa with
      wind above 12 m/s. */
  lemma RainVeryLikelyExactly(humidity: real, pressure: real, wind: real)
    ensures RainTier(RainScore(humidity, pressure, wind)) == VeryLikely <==>
      humidity > 80.0 && ((pressure < 1005.0 && wind > 8.0) || (pressure < 1013.0 && wind > 12.0))
  {
  }

  // ---------------------------------------------------------------------------
  // The whole card set
  // ---------------------------------------------------------------------------

  /** The result dictionary of the manual scorer. */
  datatype InstantPredictions = InstantPredictions(
    temperatureClass: TemperatureClass, temperatureColour: Colour,
    comfort: Comfort, comfortColour: Colour,
    stormRisk: int, stormLevel: StormLevel, stormColour: Colour,
    rainChance: int, rainLevel: RainLevel, rainColour: Colour)

  /** `get_instant_predictions`: the temperature class, comfort label and
      the two scores of the reading, each tier read off its score, and every
      label carrying its own fixed colour. */
  function GetInstantPredictions(t: real, humidity: real, pressure: real, wind: real): (r: InstantPredictions)
    ensures r.temperatureClass == ClassifyTemperature(t) && InBand(r.temperatureClass, t)
    ensures r.comfort == ClassifyComfort(t, humidity, pressure, wind)
    ensures r.stormRisk == StormScore(pressure, wind, humidity)
    ensures r.rainChance == RainScore(humidity, pressure, wind)
    ensures r.temperatureColour == r.temperatureClass.Colour()
    ensures r.comfort == Perfect <==> PerfectWindow(t, humidity, pressure, wind)
    ensures r.comfortColour == r.comfort.Colour()
    ensures 0 <= r.stormRisk <= 90 && r.stormLevel == StormTier(r.stormRisk)
    ensures r.stormColour == r.stormLevel.Colour()
    ensures 0 <= r.rainChance <= 90 && r.rainLevel == RainTier(r.rainChance)
    ensures r.rainColour == r.rainLevel.Colour()
  {
    var tc := ClassifyTemperature(t);
    var comfort := ClassifyComfort(t, humidity, pressure, wind);
    var storm := StormScore(pressure, wind, humidity);
    var stormLevel := StormTier(storm);
    var rain := RainScore(humidity, pressure, wind);
    var rainLevel := RainTier(rain);
    InstantPredictions(tc, tc.Colour(), comfort, comfort.Colour(),
                       storm, stormLevel, stormLevel.Colour(),
                       rain, rainLevel, rainLevel.Colour())
  }

  /** A mild reading is moderate and carries neither storm nor rain risk; it
      also lies in every window of the perfect comfort class, which the
      ladder tries first. */
  lemma MildExample()
    ensures GetInstantPredictions(20.0, 50.0, 1013.0, 5.0) ==
      InstantPredictions(Moderate, Orange, Perfect, Green, 0, NoRisk, Green, 0, Unlikely, Green)
  {
  }

  /** A freezing, saturated gale reaches 90 on both scores. */
  lemma GaleExample()
    ensures GetInstantPredictions(-5.0, 90.0, 995.0, 20.0) ==
      InstantPredictions(Freezing, Blue, Uncomfortable, Orange, 90, HighRisk, Red, 90, VeryLikely, Blue)
  {
  }

  // ---------------------------------------------------------------------------
  // Manual reading
  // ---------------------------------------------------------------------------

  /** `create_manual_weather_data`: a complete reading built from the four
      inputs. The clock reading `now` and the sunrise and sunset of the day
      are supplied by the caller. */
  function CreateManualWeatherData(t: real, humidity: real, pressure: real, wind: real,
                                   now: int, sunrise: int, sunset: int): (r: CurrentWeather)
    ensures r.tempMin == t - 2.0 && r.tempMax == t + 2.0
    ensures r.tempMin < r.temperature < r.tempMax && r.tempMax - r.tempMin == 4.0
    ensures r.temperature == r.feelsLike == t
    ensures r.humidity == humidity && r.windSpeed == wind
    ensures r.pressure == r.seaLevel == r.groundLevel == pressure
    ensures r.windGust - r.windSpeed == 2.0
    ensures r.visibility == 10.0
    ensures r.rain1h == r.rain3h == r.snow1h == r.snow3h == 0.0
  {
    CurrentWeather(
      "Manual Input", "Test", 0.0, 0.0, now,
      t, t, t - 2.0, t + 2.0,
      humidity, pressure, pressure, pressure,
      10.0, wind, 180.0, wind + 2.0, 30.0,
      "Clear", "clear sky", "01d",
      sunrise, sunset,
      0.0, 0.0, 0.0, 0.0)
  }
}
