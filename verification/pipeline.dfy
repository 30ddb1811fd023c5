/** How the pieces are wired together in app.py: the API path processes the
    service's current reading and scores it as a one-row table
    (`fetch_and_process_data`), the manual path builds a reading from four
    inputs and scores it with the simple scorer. The lemmas here relate the
    two scorers and the two paths. */
module Pipeline {
  import opened Common
  import opened DataProcessor
  import opened EventPredictor
  import InstantScoring
  import Dashboard

  /** The one-row table `pd.DataFrame([reading])`: it has every column of
      the record (the ones the scorer ignores stand in as `Other`), and the
      time stamp's local hour, which depends on the machine's time zone, is
      supplied by the caller. */
  function ReadingFrame(w: CurrentWeather, hour: int): (f: Frame)
    ensures !IsEmpty(f) && TrendReadable(f) && |f.rows| == 1
    ensures CurrentConditions(f) ==
      Conditions(w.temperature, w.humidity, w.pressure, w.windSpeed, w.visibility, hour)
  {
    Frame({Temperature, Humidity, Pressure, WindSpeed, Visibility, DateTime, Other("location")},
          [Row(w.temperature, w.humidity, w.pressure, w.windSpeed, w.visibility, hour)])
  }

  /** What `fetch_and_process_data` hands back: the processed reading and the
      predictions, either possibly missing. */
  datatype Fetched = Fetched(current: Option<CurrentWeather>, predictions: Option<Outcome>)

  /** `fetch_and_process_data` after the service has answered `raw`. A falsy
      answer gives `(None, None)`. An answer the processor rejects gives no
      reading and the empty predictions dictionary `{}`, which is `None` here:
      its caller tests the reading first and never looks at the predictions
      then (app.py:426). Otherwise the reading is scored as a one-row table,
      on which `predict_weather_events` as written and as corrected agree.
      (The forecast is fetched and processed too, but its result is not
      returned, so it has no part here.) */
  function FetchAndProcess(raw: Option<RawCurrent>, hour: int): (r: Fetched)
    ensures r.current == ProcessCurrent(raw)
    ensures r.predictions.Some? <==> r.current.Some?
    ensures r.predictions.Some? ==> r.predictions.value.Predicted?
    ensures r.predictions.Some? ==> r.predictions.value == PredictWeatherEvents(ReadingFrame(r.current.value, hour))
  {
    if IsFalsy(raw) then Fetched(None, None)
    else
      match ProcessCurrent(raw)
      case None => Fetched(None, None)
      case Some(w) => Fetched(Some(w), Some(PredictWeatherEventsFixed(ReadingFrame(w, hour))))
  }

  /** On the API path there is always exactly one row: the storm confidence
      is Medium, the temperature confidence High, and the temperature forecast
      is one degree up by day and one down by night, never stable. */
  lemma ApiPathForecast(raw: Option<RawCurrent>, hour: int)
    requires ProcessCurrent(raw).Some?
    ensures var r := FetchAndProcess(raw, hour);
      var p := r.predictions.value.predictions;
      && p.confidence.storm == Medium
      && p.confidence.temperature == High
      && p.temperatureForecast == r.current.value.temperature + (if 6 <= hour <= 18 then 1.0 else -1.0)
      && p.temperatureChange == (if 6 <= hour <= 18 then Rising else Falling)
  {
  }

  /** The storm card on the API path is red exactly when the risk label is
      High and green exactly when it is Low. */
  lemma StormCardMatchesLabel(f: Frame)
    requires !IsEmpty(f)
    ensures var o := PredictWeatherEventsFixed(f);
      && (Dashboard.StormCardColour(o) == Some(Red) <==> o.predictions.stormRisk == High)
      && (Dashboard.StormCardColour(o) == Some(Orange) <==> o.predictions.stormRisk == Medium)
      && (Dashboard.StormCardColour(o) == Some(Green) <==> o.predictions.stormRisk == Low)
  {
  }

  /** The two scorers use the same thresholds with weights a hundredfold
      apart. On a manual reading (visibility 10 km, so no visibility factor)
      the API storm probability is exactly the manual storm score in hundredths,
      and the API precipitation probability is the manual rain score in
      hundredths plus the cold-and-humid bonus of 0.2, capped at 1.0 (score
      and bonus together reach up to 110 hundredths). */
  lemma ScorersAgree(t: real, humidity: real, pressure: real, wind: real, now: int, sunrise: int, sunset: int, hour: int)
    ensures var w := InstantScoring.CreateManualWeatherData(t, humidity, pressure, wind, now, sunrise, sunset);
      var o := PredictWeatherEventsFixed(ReadingFrame(w, hour));
      && o.Predicted?
      && 100.0 * o.predictions.stormProbability == InstantScoring.StormScore(pressure, wind, humidity) as real
      && var rain := InstantScoring.RainScore(humidity, pressure, wind) as real
                     + (if t < 10.0 && humidity > 75.0 then 20.0 else 0.0);
         100.0 * o.predictions.precipitationProbability == (if rain < 100.0 then rain else 100.0)
  {
  }

  /** Consequently the manual storm tier and the API storm label agree:
      High Risk is High, Medium Risk is Medium, and Low or No Risk is Low. */
  lemma StormTiersAgree(t: real, humidity: real, pressure: real, wind: real, now: int, sunrise: int, sunset: int, hour: int)
    ensures var w := InstantScoring.CreateManualWeatherData(t, humidity, pressure, wind, now, sunrise, sunset);
      var o := PredictWeatherEventsFixed(ReadingFrame(w, hour));
      var tier := InstantScoring.StormTier(InstantScoring.StormScore(pressure, wind, humidity));
      && o.Predicted?
      && (tier == InstantScoring.HighRisk <==> o.predictions.stormRisk == High)
      && (tier == InstantScoring.MediumRisk <==> o.predictions.stormRisk == Medium)
      && (tier in {InstantScoring.LowRisk, InstantScoring.NoRisk} <==> o.predictions.stormRisk == Low)
  {
  }
}
