/** Reshaping of the weather service's JSON answers into the flat records the
    rest of the dashboard reads (`DataProcessor.process_current_weather` and
    `DataProcessor.process_forecast_data` in data_processor.py).

    A JSON object is a datatype whose fields are `Option`s: `None` is a key
    that is absent. Timestamps stay opaque integers (seconds since the epoch);
    turning them into local date-times is left to the caller. */
module DataProcessor {
  import opened Common

  // ---------------------------------------------------------------------------
  // The service's JSON, as far as the processor reads it
  // ---------------------------------------------------------------------------

  /** The `main` object of a reading. */
  datatype RawMain = RawMain(
    temp: Option<real>, feelsLike: Option<real>, tempMin: Option<real>, tempMax: Option<real>,
    humidity: Option<real>, pressure: Option<real>, seaLevel: Option<real>, grndLevel: Option<real>)

  /** The `wind` object: speed in m/s, direction in degrees, gust in m/s. */
  datatype RawWind = RawWind(speed: Option<real>, deg: Option<real>, gust: Option<real>)

  /** The `sys` object of a current reading. */
  datatype RawSys = RawSys(country: Option<string>, sunrise: Option<int>, sunset: Option<int>)

  /** The `coord` object of a current reading. */
  datatype RawCoord = RawCoord(lat: Option<real>, lon: Option<real>)

  /** The `clouds` object: cloud cover in percent. */
  datatype RawClouds = RawClouds(all: Option<real>)

  /** One element of the `weather` array. */
  datatype RawCondition = RawCondition(main: Option<string>, description: Option<string>, icon: Option<string>)

  /** The `rain` or `snow` object: millimetres over the last one and three hours. */
  datatype RawPrecip = RawPrecip(oneHour: Option<real>, threeHour: Option<real>)

  /** A current-weather answer. `otherKeys` records whether the object holds
      keys the processor never reads (it matters only for emptiness). */
  datatype RawCurrent = RawCurrent(
    name: Option<string>, sys: Option<RawSys>, coord: Option<RawCoord>, dt: Option<int>,
    main: Option<RawMain>, visibility: Option<real>, wind: Option<RawWind>,
    clouds: Option<RawClouds>, weather: Option<seq<RawCondition>>,
    rain: Option<RawPrecip>, snow: Option<RawPrecip>, otherKeys: bool)

  /** One element of a forecast answer's `list`; `pop` is the probability of
      precipitation as a fraction. */
  datatype RawForecastItem = RawForecastItem(
    dt: Option<int>, main: Option<RawMain>, visibility: Option<real>, wind: Option<RawWind>,
    clouds: Option<RawClouds>, weather: Option<seq<RawCondition>>, pop: Option<real>,
    rain: Option<RawPrecip>, snow: Option<RawPrecip>)

  /** A forecast answer. */
  datatype RawForecast = RawForecast(list: Option<seq<RawForecastItem>>, otherKeys: bool)

  // `d.get(key, {})`: an absent object reads as the empty object.
  const NoMain := RawMain(None, None, None, None, None, None, None, None)
  const NoWind := RawWind(None, None, None)
  const NoSys := RawSys(None, None, None)
  const NoCoord := RawCoord(None, None)
  const NoClouds := RawClouds(None)
  const NoCondition := RawCondition(None, None, None)
  const NoPrecip := RawPrecip(None, None)

  // ---------------------------------------------------------------------------
  // The processed records
  // ---------------------------------------------------------------------------

  /** A processed current reading. Visibility is in kilometres; everything
      else keeps the service's units. */
  datatype CurrentWeather = CurrentWeather(
    location: string, country: string, lat: real, lon: real, datetime: int,
    temperature: real, feelsLike: real, tempMin: real, tempMax: real,
    humidity: real, pressure: real, seaLevel: real, groundLevel: real,
    visibility: real, windSpeed: real, windDirection: real, windGust: real, cloudiness: real,
    weatherMain: string, weatherDescription: string, weatherIcon: string,
    sunrise: int, sunset: int,
    rain1h: real, rain3h: real, snow1h: real, snow3h: real)

  /** A processed forecast row. Visibility is in kilometres and the
      precipitation probability in percent. */
  datatype ForecastPoint = ForecastPoint(
    datetime: int, temperature: real, feelsLike: real, tempMin: real, tempMax: real,
    humidity: real, pressure: real, seaLevel: real, groundLevel: real,
    visibility: real, windSpeed: real, windDirection: real, windGust: real, cloudiness: real,
    weatherMain: string, weatherDescription: string, weatherIcon: string,
    precipitationProbability: real, rain3h: real, snow3h: real)

  // ---------------------------------------------------------------------------
  // Current weather
  // ---------------------------------------------------------------------------

  /** Python falsiness of the answer: `None` or the empty object. */
  predicate IsFalsy(raw: Option<RawCurrent>) {
    match raw
    case None => true
    case Some(w) =>
      && w.name.None? && w.sys.None? && w.coord.None? && w.dt.None? && w.main.None?
      && w.visibility.None? && w.wind.None? && w.clouds.None? && w.weather.None?
      && w.rain.None? && w.snow.None? && !w.otherKeys
  }

  /** `d.get('weather', [{}])`: the condition list, a one-element list of the
      empty object when the key is absent. */
  function Conditions(weather: Option<seq<RawCondition>>): seq<RawCondition> {
    weather.GetOr([NoCondition])
  }

  /** The first condition, or `None` where `process_current_weather` indexes an empty list
      (an `IndexError` that its handler turns into an empty result). */
  function FirstCondition(weather: Option<seq<RawCondition>>): (c: Option<RawCondition>)
    ensures c.None? <==> weather == Some([])
  {
    var cs := Conditions(weather);
    if |cs| == 0 then None else Some(cs[0])
  }

  /** `process_current_weather`: `None` for a falsy answer or an empty
      condition list, otherwise the flat record with every absent number read
      as 0 and every absent text as "Unknown" (the icon as "01d"). */
  function ProcessCurrent(raw: Option<RawCurrent>): (r: Option<CurrentWeather>)
    ensures r.None? <==> IsFalsy(raw) || raw.value.weather == Some([])
    ensures r.Some? ==> r.value.visibility * 1000.0 == raw.value.visibility.GetOr(0.0)
    ensures r.Some? && raw.value.rain.None? ==> r.value.rain1h == 0.0 && r.value.rain3h == 0.0
    ensures r.Some? && raw.value.snow.None? ==> r.value.snow1h == 0.0 && r.value.snow3h == 0.0
  {
    if IsFalsy(raw) then None
    else
      var w := raw.value;
      match FirstCondition(w.weather)
      case None => None
      case Some(cond) =>
        var main := w.main.GetOr(NoMain);
        var sys := w.sys.GetOr(NoSys);
        var coord := w.coord.GetOr(NoCoord);
        var wind := w.wind.GetOr(NoWind);
        var rain := w.rain.GetOr(NoPrecip);
        var snow := w.snow.GetOr(NoPrecip);
        Some(CurrentWeather(
          w.name.GetOr("Unknown"), sys.country.GetOr("Unknown"),
          coord.lat.GetOr(0.0), coord.lon.GetOr(0.0), w.dt.GetOr(0),
          main.temp.GetOr(0.0), main.feelsLike.GetOr(0.0), main.tempMin.GetOr(0.0), main.tempMax.GetOr(0.0),
          main.humidity.GetOr(0.0), main.pressure.GetOr(0.0), main.seaLevel.GetOr(0.0), main.grndLevel.GetOr(0.0),
          w.visibility.GetOr(0.0) / 1000.0,
          wind.speed.GetOr(0.0), wind.deg.GetOr(0.0), wind.gust.GetOr(0.0),
          w.clouds.GetOr(NoClouds).all.GetOr(0.0),
          cond.main.GetOr("Unknown"), cond.description.GetOr("Unknown"), cond.icon.GetOr("01d"),
          sys.sunrise.GetOr(0), sys.sunset.GetOr(0),
          rain.oneHour.GetOr(0.0), rain.threeHour.GetOr(0.0),
          snow.oneHour.GetOr(0.0), snow.threeHour.GetOr(0.0)))
  }

  /** The service answer that a processed record came from, when every key is
      present: the inverse direction of `ProcessCurrent`. */
  function CurrentToRaw(c: CurrentWeather): RawCurrent {
    RawCurrent(
      Some(c.location), Some(RawSys(Some(c.country), Some(c.sunrise), Some(c.sunset))),
      Some(RawCoord(Some(c.lat), Some(c.lon))), Some(c.datetime),
      Some(RawMain(Some(c.temperature), Some(c.feelsLike), Some(c.tempMin), Some(c.tempMax),
                   Some(c.humidity), Some(c.pressure), Some(c.seaLevel), Some(c.groundLevel))),
      Some(c.visibility * 1000.0),
      Some(RawWind(Some(c.windSpeed), Some(c.windDirection), Some(c.windGust))),
      Some(RawClouds(Some(c.cloudiness))),
      Some([RawCondition(Some(c.weatherMain), Some(c.weatherDescription), Some(c.weatherIcon))]),
      Some(RawPrecip(Some(c.rain1h), Some(c.rain3h))),
      Some(RawPrecip(Some(c.snow1h), Some(c.snow3h))),
      false)
  }

  /** Processing a complete answer loses nothing: every processed record is
      recovered from the answer it describes (metres back to kilometres). */
  lemma ProcessCurrentRoundTrip(c: CurrentWeather)
    ensures ProcessCurrent(Some(CurrentToRaw(c))) == Some(c)
  {
  }

  /** The empty object and the `None` answer both give no record. */
  lemma ProcessCurrentEmpty()
    ensures ProcessCurrent(None) == None
    ensures ProcessCurrent(Some(RawCurrent(None, None, None, None, None, None, None, None, None, None, None, false))) == None
  {
  }

  // ---------------------------------------------------------------------------
  // Forecast
  // ---------------------------------------------------------------------------

  /** One forecast row: absent numbers read as 0, except visibility, which
      defaults to 10000 m; `pop` becomes a percentage. */
  function ProcessForecastItem(item: RawForecastItem, cond: RawCondition): (p: ForecastPoint)
    ensures p.visibility * 1000.0 == item.visibility.GetOr(10000.0)
    ensures p.precipitationProbability == 100.0 * item.pop.GetOr(0.0)
    ensures item.rain.None? ==> p.rain3h == 0.0
    ensures item.snow.None? ==> p.snow3h == 0.0
  {
    var main := item.main.GetOr(NoMain);
    var wind := item.wind.GetOr(NoWind);
    ForecastPoint(
      item.dt.GetOr(0),
      main.temp.GetOr(0.0), main.feelsLike.GetOr(0.0), main.tempMin.GetOr(0.0), main.tempMax.GetOr(0.0),
      main.humidity.GetOr(0.0), main.pressure.GetOr(0.0), main.seaLevel.GetOr(0.0), main.grndLevel.GetOr(0.0),
      item.visibility.GetOr(10000.0) / 1000.0,
      wind.speed.GetOr(0.0), wind.deg.GetOr(0.0), wind.gust.GetOr(0.0),
      item.clouds.GetOr(NoClouds).all.GetOr(0.0),
      cond.main.GetOr("Unknown"), cond.description.GetOr("Unknown"), cond.icon.GetOr("01d"),
      item.pop.GetOr(0.0) * 100.0,
      item.rain.GetOr(NoPrecip).threeHour.GetOr(0.0),
      item.snow.GetOr(NoPrecip).threeHour.GetOr(0.0))
  }

  /** A probability of precipitation in [0, 1] becomes a percentage in [0, 100]. */
  lemma ForecastPercentInRange(item: RawForecastItem, cond: RawCondition)
    requires 0.0 <= item.pop.GetOr(0.0) <= 1.0
    ensures 0.0 <= ProcessForecastItem(item, cond).precipitationProbability <= 100.0
  {
  }

  /** Rows in time order. */
  predicate SortedByTime(s: seq<ForecastPoint>) {
    forall i, j :: 0 <= i < j < |s| ==> s[i].datetime <= s[j].datetime
  }

  /** `p` placed into the time-ordered `s` before the first row that is not
      earlier than it. */
  function InsertByTime(p: ForecastPoint, s: seq<ForecastPoint>): (r: seq<ForecastPoint>)
    requires SortedByTime(s)
    ensures SortedByTime(r)
    ensures multiset(r) == multiset(s) + multiset{p}
    ensures |r| == |s| + 1
    ensures r[0] == p || (|s| > 0 && r[0] == s[0])
  {
    if |s| == 0 then [p]
    else if p.datetime <= s[0].datetime then [p] + s
    else
      var rest := InsertByTime(p, s[1..]);
      assert s == [s[0]] + s[1..];
      SortedCons(s[0], rest);
      [s[0]] + rest
  }

  /** A row no later than the head of time-ordered rows can go in front. */
  lemma SortedCons(p: ForecastPoint, s: seq<ForecastPoint>)
    requires SortedByTime(s)
    requires |s| > 0 ==> p.datetime <= s[0].datetime
    ensures SortedByTime([p] + s)
  {
  }

  /** `sort_values('datetime')` as a stable insertion sort: a time-ordered
      rearrangement of `s`. */
  function SortByTime(s: seq<ForecastPoint>): (r: seq<ForecastPoint>)
    ensures SortedByTime(r)
    ensures multiset(r) == multiset(s)
    ensures |r| == |s|
  {
    if |s| == 0 then []
    else
      assert s == [s[0]] + s[1..];
      InsertByTime(s[0], SortByTime(s[1..]))
  }

  /** Rows in strictly increasing time order: no two share a time stamp. */
  predicate StrictlyByTime(s: seq<ForecastPoint>) {
    forall i, j :: 0 <= i < j < |s| ==> s[i].datetime < s[j].datetime
  }

  /** Sorting rows whose time stamps already strictly increase keeps them as
      they are. Rows sharing a time stamp may come out in either order from
      pandas' unstable sort, so nothing is promised about them. */
  lemma {:induction false} SortByTimeSorted(s: seq<ForecastPoint>)
    requires StrictlyByTime(s)
    ensures SortByTime(s) == s
  {
    if |s| > 0 {
      SortByTimeSorted(s[1..]);
      assert SortByTime(s[1..]) == s[1..];
      assert s == [s[0]] + s[1..];
    }
  }

  /** Whether some item has an empty condition list, which `process_forecast_data` indexes
      (an `IndexError` that its handler turns into an empty result). */
  predicate HasEmptyConditions(items: seq<RawForecastItem>) {
    exists i :: 0 <= i < |items| && items[i].weather == Some([])
  }

  /** The unsorted rows, one per item, in the order of the items. */
  function ForecastRows(items: seq<RawForecastItem>): (rows: seq<ForecastPoint>)
    requires !HasEmptyConditions(items)
    ensures |rows| == |items|
  {
    seq(|items|, i requires 0 <= i < |items| =>
      ProcessForecastItem(items[i], Conditions(items[i].weather)[0]))
  }

  /** `process_forecast_data`: no rows for a falsy answer, a missing `list`,
      or an item with an empty condition list; otherwise exactly one row per
      item, in time order. */
  function ProcessForecast(raw: Option<RawForecast>): (r: seq<ForecastPoint>)
    ensures (raw.None? || raw.value.list.None?) ==> r == []
    ensures raw.Some? && raw.value.list.Some? && HasEmptyConditions(raw.value.list.value) ==> r == []
    ensures raw.Some? && raw.value.list.Some? && !HasEmptyConditions(raw.value.list.value) ==>
      && |r| == |raw.value.list.value|
      && multiset(r) == multiset(ForecastRows(raw.value.list.value))
    ensures SortedByTime(r)
  {
    match raw
    case None => []
    case Some(f) =>
      match f.list
      case None => []
      case Some(items) =>
        if HasEmptyConditions(items) then [] else SortByTime(ForecastRows(items))
  }

  /** The forecast item a processed row came from, with every key present. */
  function PointToRaw(p: ForecastPoint): RawForecastItem {
    RawForecastItem(
      Some(p.datetime),
      Some(RawMain(Some(p.temperature), Some(p.feelsLike), Some(p.tempMin), Some(p.tempMax),
                   Some(p.humidity), Some(p.pressure), Some(p.seaLevel), Some(p.groundLevel))),
      Some(p.visibility * 1000.0),
      Some(RawWind(Some(p.windSpeed), Some(p.windDirection), Some(p.windGust))),
      Some(RawClouds(Some(p.cloudiness))),
      Some([RawCondition(Some(p.weatherMain), Some(p.weatherDescription), Some(p.weatherIcon))]),
      Some(p.precipitationProbability / 100.0),
      Some(RawPrecip(None, Some(p.rain3h))),
      Some(RawPrecip(None, Some(p.snow3h))))
  }

  /** Rows with strictly increasing time stamps survive a trip through the
      service's format and back. */
  lemma ProcessForecastRoundTrip(points: seq<ForecastPoint>)
    requires StrictlyByTime(points)
    ensures ProcessForecast(Some(RawForecast(Some(seq(|points|, i requires 0 <= i < |points| => PointToRaw(points[i]))), false))) == points
  {
    var items := seq(|points|, i requires 0 <= i < |points| => PointToRaw(points[i]));
    assert !HasEmptyConditions(items);
    var rows := ForecastRows(items);
    forall i | 0 <= i < |points|
      ensures rows[i] == points[i]
    {
    }
    assert rows == points;
    SortByTimeSorted(points);
  }
}
