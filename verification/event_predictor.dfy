/** The API-path scorer (`WeatherPredictor.predict_weather_events` in
    ml_models.py). It reads the last of a table of readings, substituting a
    default for every missing column, and sums fixed decimal weights into a
    storm probability and a precipitation probability, each capped at 1.0;
    it forecasts the temperature from the first-to-last pressure trend and the
    hour of day, and lists alerts and confidence labels.

    The weights are exact reals: the model makes no claim about how the
    Python binary floating-point sums fall at a threshold. */
module EventPredictor {

  // ---------------------------------------------------------------------------
  // The input table
  // ---------------------------------------------------------------------------

  /** The column names the scorer looks up. */
  const KnownNames: set<string> := {"temperature", "humidity", "pressure", "wind_speed", "visibility", "datetime"}

  /** The name of a column the scorer ignores: none of the names it looks up. */
  type OtherName = name: string | name !in KnownNames witness "location"

  /** The columns the scorer looks for; `Other` stands for every column it
      ignores. */
  datatype Column = Temperature | Humidity | Pressure | WindSpeed | Visibility | DateTime | Other(name: OtherName)

  /** One row of the table. The `datetime` column is represented by the
      local hour of its time stamp. A value in a column the table lacks is
      never read. */
  datatype Row = Row(temperature: real, humidity: real, pressure: real, windSpeed: real, visibility: real, hour: int)

  /** A table of readings, oldest first. */
  datatype Frame = Frame(columns: set<Column>, rows: seq<Row>)

  /** pandas' `DataFrame.empty`: no rows or no columns. */
  predicate IsEmpty(f: Frame) {
    |f.rows| == 0 || f.columns == {}
  }

  /** The current conditions the rules look at. */
  datatype Conditions = Conditions(temperature: real, humidity: real, pressure: real, windSpeed: real, visibility: real, hour: int)

  const DefaultTemperature := 20.0
  const DefaultHumidity := 50.0
  const DefaultPressure := 1013.0
  const DefaultWindSpeed := 5.0
  const DefaultVisibility := 10.0
  const DefaultHour := 12

  /** The last row's values, with the default for each missing column. */
  function CurrentConditions(f: Frame): (c: Conditions)
    requires |f.rows| > 0
    ensures var last := f.rows[|f.rows| - 1];
      && c.temperature in {last.temperature, 20.0}
      && c.humidity in {last.humidity, 50.0}
      && c.pressure in {last.pressure, 1013.0}
      && c.windSpeed in {last.windSpeed, 5.0}
      && c.visibility in {last.visibility, 10.0}
      && c.hour in {last.hour, 12}
  {
    var last := f.rows[|f.rows| - 1];
    Conditions(
      if Temperature in f.columns then last.temperature else DefaultTemperature,
      if Humidity in f.columns then last.humidity else DefaultHumidity,
      if Pressure in f.columns then last.pressure else DefaultPressure,
      if WindSpeed in f.columns then last.windSpeed else DefaultWindSpeed,
      if Visibility in f.columns then last.visibility else DefaultVisibility,
      if DateTime in f.columns then last.hour else DefaultHour)
  }

  /** Only the set of columns and the last row are read: earlier rows and the
      ignored columns make no difference. */
  lemma LastRowDecides(f: Frame, g: Frame)
    requires |f.rows| > 0 && |g.rows| > 0
    requires f.rows[|f.rows| - 1] == g.rows[|g.rows| - 1]
    requires forall col: Column :: !col.Other? ==> (col in f.columns <==> col in g.columns)
    ensures CurrentConditions(f) == CurrentConditions(g)
  {
  }

  /** With all six known columns present, the conditions are the last row. */
  lemma AllKnownColumnsReadLastRow(f: Frame)
    requires |f.rows| > 0
    requires {Temperature, Humidity, Pressure, WindSpeed, Visibility, DateTime} <= f.columns
    ensures var last := f.rows[|f.rows| - 1];
      CurrentConditions(f) ==
        Conditions(last.temperature, last.humidity, last.pressure, last.windSpeed, last.visibility, last.hour)
  {
  }

  /** Dropping one known column replaces that value alone by its default,
      leaving the other five as they were. */
  lemma DropColumnDefaults(f: Frame, col: Column)
    requires |f.rows| > 0
    ensures var c := CurrentConditions(f);
      var d := CurrentConditions(Frame(f.columns - {col}, f.rows));
      && (col == Temperature ==> d == c.(temperature := 20.0))
      && (col == Humidity ==> d == c.(humidity := 50.0))
      && (col == Pressure ==> d == c.(pressure := 1013.0))
      && (col == WindSpeed ==> d == c.(windSpeed := 5.0))
      && (col == Visibility ==> d == c.(visibility := 10.0))
      && (col == DateTime ==> d == c.(hour := 12))
      && (col.Other? ==> d == c)
  {
  }

  /** A table with no known columns is scored on the defaults alone. */
  lemma DefaultsOnly(f: Frame)
    requires |f.rows| > 0
    requires forall col :: col in f.columns ==> col.Other?
    ensures CurrentConditions(f) == Conditions(20.0, 50.0, 1013.0, 5.0, 10.0, 12)
  {
  }

  // ---------------------------------------------------------------------------
  // Summing factors
  // ---------------------------------------------------------------------------

  /** Python's `sum` over a list of factors. */
  function Sum(xs: seq<real>): (r: real)
    ensures (forall i :: 0 <= i < |xs| ==> 0.0 <= xs[i]) ==> 0.0 <= r
  {
    if |xs| == 0 then 0.0 else xs[0] + Sum(xs[1..])
  }

  /** Summing element by element smaller factors gives a smaller sum. */
  lemma {:induction false} SumMonotone(xs: seq<real>, ys: seq<real>)
    requires |xs| == |ys|
    requires forall i :: 0 <= i < |xs| ==> xs[i] <= ys[i]
    ensures Sum(xs) <= Sum(ys)
  {
    if |xs| > 0 {
      SumMonotone(xs[1..], ys[1..]);
    }
  }

  /** The sum of a list extended by one factor. */
  lemma {:induction false} SumAppend(xs: seq<real>, x: real)
    ensures Sum(xs + [x]) == Sum(xs) + x
  {
    if |xs| > 0 {
      assert (xs + [x])[1..] == xs[1..] + [x];
      SumAppend(xs[1..], x);
    }
  }

  /** The sum of three and of four factors, written out. */
  lemma SumSmall(a: real, b: real, c: real, d: real)
    ensures Sum([a, b, c]) == a + b + c
    ensures Sum([a, b, c, d]) == a + b + c + d
  {
    assert [a] == [] + [a];
    assert [a, b] == [a] + [b];
    assert [a, b, c] == [a, b] + [c];
    assert [a, b, c, d] == [a, b, c] + [d];
    SumAppend([], a);
    SumAppend([a], b);
    SumAppend([a, b], c);
    SumAppend([a, b, c], d);
  }

  /** Python's `min(total, 1.0)`. */
  function CapAtOne(total: real): (p: real)
    ensures p <= 1.0 && p <= total
    ensures p == total || p == 1.0
  {
    if total < 1.0 then total else 1.0
  }

  // ---------------------------------------------------------------------------
  // Storm probability
  // ---------------------------------------------------------------------------

  function StormPressureFactor(pressure: real): real {
    if pressure < 1000.0 then 0.4 else if pressure < 1010.0 then 0.2 else 0.0
  }

  function StormWindFactor(wind: real): real {
    if wind > 15.0 then 0.3 else if wind > 10.0 then 0.15 else 0.0
  }

  function StormHumidityFactor(humidity: real): real {
    if humidity > 85.0 then 0.2 else if humidity > 70.0 then 0.1 else 0.0
  }

  function StormVisibilityFactor(visibility: real): real {
    if visibility < 5.0 then 0.2 else if visibility < 8.0 then 0.1 else 0.0
  }

  /** The storm factors in the order `predict_weather_events` appends them. */
  function StormFactors(c: Conditions): seq<real> {
    [StormPressureFactor(c.pressure), StormWindFactor(c.windSpeed),
     StormHumidityFactor(c.humidity), StormVisibilityFactor(c.visibility)]
  }

  /** The storm probability: a probability, and the capped sum of the four
      factors. */
  function StormProbability(c: Conditions): (p: real)
    ensures 0.0 <= p <= 1.0
    ensures p == CapAtOne(StormPressureFactor(c.pressure) + StormWindFactor(c.windSpeed)
                          + StormHumidityFactor(c.humidity) + StormVisibilityFactor(c.visibility))
  {
    SumSmall(StormPressureFactor(c.pressure), StormWindFactor(c.windSpeed),
             StormHumidityFactor(c.humidity), StormVisibilityFactor(c.visibility));
    CapAtOne(Sum(StormFactors(c)))
  }

  /** The factors add up to at most 1.1, and that maximum is reached and
      capped: the cap is not dead code. */
  lemma StormFactorsMaximum(c: Conditions)
    ensures Sum(StormFactors(c)) <= 1.1
    ensures var worst := Conditions(-5.0, 90.0, 990.0, 20.0, 2.0, 12);
      Sum(StormFactors(worst)) == 1.1 && StormProbability(worst) == 1.0
  {
    SumMonotone(StormFactors(c), [0.4, 0.3, 0.2, 0.2]);
    SumSmall(0.4, 0.3, 0.2, 0.2);
    var worst := Conditions(-5.0, 90.0, 990.0, 20.0, 2.0, 12);
    SumSmall(0.4, 0.3, 0.2, 0.2);
    assert StormFactors(worst) == [0.4, 0.3, 0.2, 0.2];
  }

  /** The three-step label of a probability: above 0.7, above 0.4, else low. */
  datatype Level = Low | Medium | High {
    function Label(): string {
      match this
      case Low => "Low"
      case Medium => "Medium"
      case High => "High"
    }
  }

  function RiskLevel(p: real): (level: Level)
    ensures level == High <==> p > 0.7
    ensures level == Medium <==> 0.4 < p <= 0.7
    ensures level == Low <==> p <= 0.4
  {
    if p > 0.7 then High else if p > 0.4 then Medium else Low
  }

  /** Lower pressure, stronger wind, higher humidity or poorer visibility
      never lowers the storm probability. */
  lemma StormProbabilityMonotone(c1: Conditions, c2: Conditions)
    requires c2.pressure <= c1.pressure && c1.windSpeed <= c2.windSpeed
    requires c1.humidity <= c2.humidity && c2.visibility <= c1.visibility
    ensures StormProbability(c1) <= StormProbability(c2)
  {
  }

  // ---------------------------------------------------------------------------
  // Precipitation probability
  // ---------------------------------------------------------------------------

  function PrecipHumidityFactor(humidity: real): real {
    if humidity > 80.0 then 0.4 else if humidity > 65.0 then 0.2 else 0.0
  }

  function PrecipPressureFactor(pressure: real): real {
    if pressure < 1005.0 then 0.3 else if pressure < 1013.0 then 0.15 else 0.0
  }

  function PrecipWindFactor(wind: real): real {
    if wind > 12.0 then 0.2 else if wind > 8.0 then 0.1 else 0.0
  }

  /** Cold, humid air: below 10 °C and above 75 %. */
  predicate ColdAndHumid(c: Conditions) {
    c.temperature < 10.0 && c.humidity > 75.0
  }

  /** The precipitation factors in the order `predict_weather_events` appends them; the
      cold-and-humid factor is appended only when it applies. */
  function PrecipFactors(c: Conditions): seq<real> {
    [PrecipHumidityFactor(c.humidity), PrecipPressureFactor(c.pressure), PrecipWindFactor(c.windSpeed)]
      + (if ColdAndHumid(c) then [0.2] else [])
  }

  /** The precipitation probability: a probability, and the capped sum of
      the three weather factors plus 0.2 exactly for cold, humid air. */
  function PrecipitationProbability(c: Conditions): (p: real)
    ensures 0.0 <= p <= 1.0
    ensures p == CapAtOne(PrecipHumidityFactor(c.humidity) + PrecipPressureFactor(c.pressure)
                          + PrecipWindFactor(c.windSpeed) + (if ColdAndHumid(c) then 0.2 else 0.0))
  {
    var a, b, d := PrecipHumidityFactor(c.humidity), PrecipPressureFactor(c.pressure), PrecipWindFactor(c.windSpeed);
    SumSmall(a, b, d, 0.2);
    assert ColdAndHumid(c) ==> PrecipFactors(c) == [a, b, d, 0.2];
    assert !ColdAndHumid(c) ==> PrecipFactors(c) == [a, b, d];
    CapAtOne(Sum(PrecipFactors(c)))
  }

  /** The cold-humid bonus separates two readings that differ only in
      temperature across 10 °C: at high humidity the colder one scores 0.2
      more, before the cap. */
  lemma ColdHumidBonus(c: Conditions)
    requires c.humidity > 75.0 && c.temperature < 10.0
    ensures var warm := c.(temperature := 10.0);
      Sum(PrecipFactors(c)) == Sum(PrecipFactors(warm)) + 0.2
  {
    var warm := c.(temperature := 10.0);
    var a, b, d := PrecipHumidityFactor(c.humidity), PrecipPressureFactor(c.pressure), PrecipWindFactor(c.windSpeed);
    SumSmall(a, b, d, 0.2);
    assert PrecipFactors(c) == [a, b, d, 0.2];
    assert PrecipFactors(warm) == [a, b, d];
  }

  // ---------------------------------------------------------------------------
  // Temperature forecast
  // ---------------------------------------------------------------------------

  /** The pressure-trend factor: over more than one row, +2 when the pressure
      rose by more than 5 hPa from the first to the last row, -1 when it fell
      by more than 5 hPa, 0 otherwise; 0 for a single row. */
  function PressureTrendFactor(f: Frame): (k: int)
    requires |f.rows| <= 1 || Pressure in f.columns
    ensures k in {2, 0, -1}
    ensures |f.rows| <= 1 ==> k == 0
    ensures |f.rows| > 1 ==>
      && (k == 2 <==> f.rows[|f.rows| - 1].pressure - f.rows[0].pressure > 5.0)
      && (k == -1 <==> f.rows[|f.rows| - 1].pressure - f.rows[0].pressure < -5.0)
  {
    if |f.rows| > 1 then
      var trend := f.rows[|f.rows| - 1].pressure - f.rows[0].pressure;
      if trend > 5.0 then 2 else if trend < -5.0 then -1 else 0
    else 0
  }

  /** Only the first and last pressures decide the trend factor. */
  lemma TrendFromEndpoints(f: Frame, g: Frame)
    requires |f.rows| > 1 && |g.rows| > 1
    requires Pressure in f.columns && Pressure in g.columns
    requires f.rows[0].pressure == g.rows[0].pressure
    requires f.rows[|f.rows| - 1].pressure == g.rows[|g.rows| - 1].pressure
    ensures PressureTrendFactor(f) == PressureTrendFactor(g)
  {
  }

  /** Daytime (06 to 18 inclusive) adds a degree, night takes one away. */
  function DiurnalFactor(hour: int): (k: int)
    ensures k == 1 <==> 6 <= hour <= 18
    ensures k == -1 <==> !(6 <= hour <= 18)
  {
    if 6 <= hour <= 18 then 1 else -1
  }

  datatype Trend = Rising | Falling | Stable {
    function Label(): string {
      match this
      case Rising => "Rising"
      case Falling => "Falling"
      case Stable => "Stable"
    }
  }

  /** The direction of a temperature change. */
  function TrendOf(change: int): (t: Trend)
    ensures t == Rising <==> change > 0
    ensures t == Falling <==> change < 0
    ensures t == Stable <==> change == 0
  {
    if change > 0 then Rising else if change < 0 then Falling else Stable
  }

  /** The forecast change in degrees, trend plus time of day: one of -2, -1,
      0, 1 and 3. */
  function TemperatureChange(trend: int, hour: int): (k: int)
    requires trend in {2, 0, -1}
    ensures k in {-2, -1, 0, 1, 3}
    ensures k - trend == DiurnalFactor(hour)
  {
    trend + DiurnalFactor(hour)
  }

  /** A single reading has no trend, so its forecast moves by exactly one
      degree: up by day, down by night, never stable. */
  lemma SingleRowChange(f: Frame)
    requires |f.rows| == 1
    ensures PressureTrendFactor(f) == 0
    ensures var k := TemperatureChange(PressureTrendFactor(f), CurrentConditions(f).hour);
      && k == (if 6 <= CurrentConditions(f).hour <= 18 then 1 else -1)
      && TrendOf(k) != Stable
  {
  }

  // ---------------------------------------------------------------------------
  // Alerts
  // ---------------------------------------------------------------------------

  /** The alerts, in the order `predict_weather_events` emits them. */
  datatype Alert =
    | StormAlert | HeavyPrecipitation | StrongWind | PoorVisibility
    | FreezingAlert | ExtremeHeatAlert | VeryLowPressure
  {
    function Position(): nat {
      match this
      case StormAlert => 0
      case HeavyPrecipitation => 1
      case StrongWind => 2
      case PoorVisibility => 3
      case FreezingAlert => 4
      case ExtremeHeatAlert => 5
      case VeryLowPressure => 6
    }

    function Message(): string {
      match this
      case StormAlert => "High storm risk detected - Low pressure and strong winds"
      case HeavyPrecipitation => "Heavy precipitation expected - High humidity and low pressure"
      case StrongWind => "Strong wind conditions - Exercise caution outdoors"
      case PoorVisibility => "Poor visibility conditions - Fog or precipitation present"
      case FreezingAlert => "Freezing temperatures - Risk of ice formation"
      case ExtremeHeatAlert => "Extreme heat conditions - Stay hydrated"
      case VeryLowPressure => "Very low atmospheric pressure - Severe weather possible"
    }
  }

  /** When each alert applies. The heat alert sits in the `else` branch of
      the freezing alert, so it also asks for a temperature not below 0 °C. */
  predicate Triggered(a: Alert, storm: real, precip: real, c: Conditions) {
    match a
    case StormAlert => storm > 0.7
    case HeavyPrecipitation => precip > 0.8
    case StrongWind => c.windSpeed > 20.0
    case PoorVisibility => c.visibility < 3.0
    case FreezingAlert => c.temperature < 0.0
    case ExtremeHeatAlert => !(c.temperature < 0.0) && c.temperature > 35.0
    case VeryLowPressure => c.pressure < 995.0
  }

  /** Alerts listed in strictly increasing position. */
  predicate InOrder(alerts: seq<Alert>) {
    forall i, j :: 0 <= i < j < |alerts| ==> alerts[i].Position() < alerts[j].Position()
  }

  /** Every alert, in the order of `predict_weather_events`'s checks. */
  const Catalogue: seq<Alert> :=
    [StormAlert, HeavyPrecipitation, StrongWind, PoorVisibility, FreezingAlert, ExtremeHeatAlert, VeryLowPressure]

  /** The candidates that apply, kept in their order: `predict_weather_events`' run of
      independent `if ...: alerts.append(...)` checks. */
  function Select(candidates: seq<Alert>, storm: real, precip: real, c: Conditions): (r: seq<Alert>)
    requires InOrder(candidates)
    ensures InOrder(r)
    ensures forall a :: a in r <==> a in candidates && Triggered(a, storm, precip, c)
    ensures |r| <= |candidates|
    ensures (exists j :: 0 <= j < |candidates| && !Triggered(candidates[j], storm, precip, c)) ==> |r| < |candidates|
  {
    if |candidates| == 0 then []
    else
      var head := candidates[0];
      var tail := candidates[1..];
      assert InOrder(tail);
      var rest := Select(tail, storm, precip, c);
      assert forall a :: a in candidates <==> a == head || a in tail;
      assert forall a :: a in tail ==> head.Position() < a.Position();
      if Triggered(head, storm, precip, c) then
        SortedAfter(head, rest);
        [head] + rest
      else rest
  }

  /** An alert placed before alerts that all come later keeps the order. */
  lemma SortedAfter(a: Alert, s: seq<Alert>)
    requires InOrder(s)
    requires forall x :: x in s ==> a.Position() < x.Position()
    ensures InOrder([a] + s)
  {
  }

  /** The alert list: each alert present exactly when it applies, in the
      fixed order, never both the freezing and the heat alert, so at most six. */
  function Alerts(storm: real, precip: real, c: Conditions): (alerts: seq<Alert>)
    ensures forall a :: a in alerts <==> Triggered(a, storm, precip, c)
    ensures InOrder(alerts)
    ensures !(FreezingAlert in alerts && ExtremeHeatAlert in alerts)
    ensures |alerts| <= 6
  {
    assert Catalogue[4] == FreezingAlert && Catalogue[5] == ExtremeHeatAlert;
    Select(Catalogue, storm, precip, c)
  }

  /** A pressure of exactly 995 hPa raises no low-pressure alert. */
  lemma NoLowPressureAlertAt995(storm: real, precip: real, c: Conditions)
    requires c.pressure == 995.0
    ensures VeryLowPressure !in Alerts(storm, precip, c)
  {
  }

  // ---------------------------------------------------------------------------
  // The whole prediction
  // ---------------------------------------------------------------------------

  /** How much trust each forecast deserves. */
  datatype Confidence = Confidence(storm: Level, temperature: Level, precipitation: Level)

  /** The result dictionary on success. */
  datatype Predictions = Predictions(
    stormProbability: real, stormRisk: Level,
    temperatureForecast: real, temperatureChange: Trend,
    precipitationProbability: real, precipitationLikelihood: Level,
    alerts: seq<Alert>, confidence: Confidence)

  /** Either the predictions or the error message `predict_weather_events` returns instead. */
  datatype Outcome = Predicted(predictions: Predictions) | Failed(message: string)

  const NoDataMessage := "No weather data provided"

  /** A table of several rows without a `pressure` column makes the trend
      lookup raise `KeyError('pressure')`, which the handler of `predict_weather_events` reports. */
  const MissingPressureMessage := "Real-time prediction failed: 'pressure'"

  /** Whether the trend lookup can run: at most one row, or a pressure column. */
  predicate TrendReadable(f: Frame) {
    |f.rows| <= 1 || Pressure in f.columns
  }

  /** The predictions for a non-empty table, given its pressure-trend factor. */
  function Assess(f: Frame, trend: int): (p: Predictions)
    requires |f.rows| > 0
    requires trend in {2, 0, -1}
    ensures var c := CurrentConditions(f);
      && p.stormProbability == StormProbability(c)
      && p.precipitationProbability == PrecipitationProbability(c)
      && 0.0 <= p.stormProbability <= 1.0
      && 0.0 <= p.precipitationProbability <= 1.0
      && p.stormRisk == RiskLevel(p.stormProbability)
      && p.precipitationLikelihood == RiskLevel(p.precipitationProbability)
      && p.temperatureForecast - c.temperature == (trend + DiurnalFactor(c.hour)) as real
      && p.temperatureForecast - c.temperature in {-2.0, -1.0, 0.0, 1.0, 3.0}
      && (p.temperatureChange == Rising <==> p.temperatureForecast > c.temperature)
      && (p.temperatureChange == Falling <==> p.temperatureForecast < c.temperature)
      && p.alerts == Alerts(p.stormProbability, p.precipitationProbability, c)
      && (forall a :: a in p.alerts <==> Triggered(a, p.stormProbability, p.precipitationProbability, c))
      && InOrder(p.alerts)
      && (p.confidence.storm == High <==> |f.rows| > 5)
      && (p.confidence.temperature == High <==> Pressure in f.columns)
      && (p.confidence.precipitation == High <==> c.humidity > 0.0)
  {
    var c := CurrentConditions(f);
    var storm := StormProbability(c);
    var change := TemperatureChange(trend, c.hour);
    var precip := PrecipitationProbability(c);
    Predictions(
      storm, RiskLevel(storm),
      c.temperature + change as real, TrendOf(change),
      precip, RiskLevel(precip),
      Alerts(storm, precip, c),
      Confidence(
        if |f.rows| > 5 then High else Medium,
        if Pressure in f.columns then High else Medium,
        if c.humidity > 0.0 then High else Medium))
  }

  /** `predict_weather_events` as written: a table of several rows without a
      pressure column fails on the trend lookup, although the current
      pressure has a default and the temperature confidence has a branch for
      a missing pressure column. */
  function PredictWeatherEvents(f: Frame): (o: Outcome)
    ensures o == Failed(NoDataMessage) <==> IsEmpty(f)
    ensures o.Failed? <==> IsEmpty(f) || !TrendReadable(f)
    ensures o.Failed? && !IsEmpty(f) ==> o.message == MissingPressureMessage
    ensures o.Predicted? ==> o.predictions == Assess(f, PressureTrendFactor(f))
    ensures o.Predicted? ==> o.predictions.confidence.temperature == High || |f.rows| == 1
  {
    if IsEmpty(f) then Failed(NoDataMessage)
    else if !TrendReadable(f) then Failed(MissingPressureMessage)
    else Predicted(Assess(f, PressureTrendFactor(f)))
  }

  /** Two readings without a pressure column: `predict_weather_events` gives up with the
      `KeyError` message instead of scoring them. */
  lemma MissingPressureColumnFails()
    ensures var row := Row(25.0, 60.0, 1013.0, 3.0, 10.0, 12);
      PredictWeatherEvents(Frame({Temperature, Humidity}, [row, row])) == Failed(MissingPressureMessage)
  {
  }

  /** The trend factor with a missing pressure column read as "no trend", as
      the single-row case and the confidence rule already treat it. */
  function TolerantTrendFactor(f: Frame): (k: int)
    ensures k in {2, 0, -1}
    ensures Pressure !in f.columns ==> k == 0
    ensures TrendReadable(f) ==> k == PressureTrendFactor(f)
  {
    if Pressure in f.columns then PressureTrendFactor(f) else 0
  }

  /** `predict_weather_events` as evidently intended: every non-empty table
      is scored, and the only failure is the empty one. */
  function PredictWeatherEventsFixed(f: Frame): (o: Outcome)
    ensures o.Failed? <==> IsEmpty(f)
    ensures o.Failed? ==> o.message == NoDataMessage
    ensures o.Predicted? && Pressure !in f.columns ==>
      && o.predictions.confidence.temperature == Medium
      && o.predictions.temperatureForecast - CurrentConditions(f).temperature == DiurnalFactor(CurrentConditions(f).hour) as real
    ensures o.Predicted? ==> o.predictions == Assess(f, TolerantTrendFactor(f))
    ensures TrendReadable(f) ==> o == PredictWeatherEvents(f)
  {
    if IsEmpty(f) then Failed(NoDataMessage)
    else Predicted(Assess(f, TolerantTrendFactor(f)))
  }
}
