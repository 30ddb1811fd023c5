# Weather dashboard scoring, modelled in Dafny

This project models the deterministic core of a Streamlit weather dashboard.
The dashboard turns weather readings into heuristic "predictions" using
threshold ladders. There is no trained model on the live path.

- **Manual scorer** (`get_instant_predictions`, app.py). Temperature, humidity,
  pressure and wind speed become:
  - a temperature class;
  - a comfort label;
  - an integer storm score with a tier;
  - an integer rain score with a tier.

  Each label has a fixed colour. Module `InstantScoring`, which also holds
  the manual reading builder `create_manual_weather_data`.
- **API-path scorer** (`WeatherPredictor.predict_weather_events`,
  ml_models.py). It reads the last row of a table of readings, using a
  default for each missing column. From that it computes:
  - a storm probability and a precipitation probability, each a capped sum
    of decimal weights;
  - a temperature forecast from the pressure trend and the hour of day;
  - an ordered alert list;
  - confidence labels.

  Module `EventPredictor`.
- **Data shaping** (`DataProcessor`, data_processor.py):
  - reshaping the weather service's JSON answers into flat records, in
    module `DataProcessor`;
  - the heat index, the comfort ladder and the forecast stability and
    precipitation patterns, in module `WeatherAnalysis`.
- **Dashboard fragments** (dashboard.py). These are the 16-point compass
  naming of a wind direction and the storm card colour, in module
  `Dashboard`.
- **Wiring** (app.py). The API path scores the processed current reading as
  a one-row table. Module `Pipeline` relates this path to the manual path and
  the card colours to the labels.

Numbers are exact Dafny `real`s. The weights 0.4, 0.15, … are exact decimals.
The model does not claim bit-exact agreement with Python's binary
floating-point sums at a threshold. For example, it does not settle whether
0.4 + 0.3 lands above 0.7.

A JSON object is a datatype of `Option` fields, where `None` is an absent
key. A pandas table is a set of columns plus a sequence of rows. Time stamps
are opaque integers, and the local hour of a reading is supplied by the
caller.

Some consequences of the code that are easy to overlook:

- A reading of 20 °C, 50 %, 1013 hPa and 5 m/s lies in every window of the
  first rung of the comfort ladder, so it is rated "Perfect".
- Both manual scores lie in [0, 90]. The cap at 100 in app.py never applies.
- The manual scorer produces no alerts. Alerts come only from the API-path
  scorer.
- Inputs are not validated. Every real number is scored.
- A column the API-path scorer ignores (`Other`) never carries one of the six
  names it looks up, since pandas would treat such a column as a known one.

## Model

| member | source | states |
|---|---|---|
| InstantScoring.ClassifyTemperature | app.py:225-242 | the class returned is the one whose half-open band [lower, upper) contains the temperature |
| InstantScoring.ClassifyTemperatureByBand | app.py:225-242 | the bands do not overlap: a class is returned if and only if the temperature lies in its band |
| InstantScoring.TemperatureBoundaries | app.py:225-242 | each band is closed below: 0 is Cold, 10 Cool, 20 Moderate, 30 Hot, 40 Extreme Heat |
| InstantScoring.ClassifyTemperatureMonotone | app.py:225-242 | a higher temperature never gives a colder class |
| InstantScoring.ClassifyComfort | app.py:248-259 | Perfect exactly in the four-way window; Comfortable exactly in the 15–28 °C / 30–70 % window outside it; Uncomfortable and Fair exactly outside that window, split by T > 35 or humidity > 80 |
| InstantScoring.ComfortOutsideWindow | app.py:248-259 | the perfect window lies inside the comfortable one, so Fair or Uncomfortable comes exactly when the reading is outside the comfortable window |
| InstantScoring.StormScore | app.py:264-281 | the storm score lies in [0, 90] and equals the sum of its three terms, so the cap at 100 never changes it |
| InstantScoring.StormScoreMonotone | app.py:265-279 | lower pressure, stronger wind or higher humidity never lowers the storm score |
| InstantScoring.StormPressureBoundary | app.py:266-269 | a pressure of exactly 1000 hPa contributes 20, not 40 |
| InstantScoring.StormTier | app.py:283-294 | the tier is High above 70, Medium in (40, 70], Low in (15, 40], No Risk otherwise |
| InstantScoring.StormTierMonotone | app.py:283-294 | a higher score never gives a lower tier |
| InstantScoring.StormHighRiskExactly | app.py:264-294 | High Risk exactly when pressure < 1000 and either wind > 15 with humidity > 70 or wind > 10 with humidity > 85 |
| InstantScoring.RainScore | app.py:300-317 | the rain score lies in [0, 90] and equals the sum of its three terms |
| InstantScoring.RainScoreMonotone | app.py:301-315 | higher humidity, lower pressure or stronger wind never lowers the rain score |
| InstantScoring.RainTier | app.py:319-330 | Very Likely above 70, Likely in (50, 70], Possible in (30, 50], Unlikely otherwise |
| InstantScoring.RainVeryLikelyExactly | app.py:300-330 | Very Likely exactly when humidity > 80 and either pressure < 1005 with wind > 8 or pressure < 1013 with wind > 12 |
| InstantScoring.GetInstantPredictions | app.py:220-336 | the result holds the reading's temperature class, comfort label, storm score and rain score; each tier is the tier of its score; every label carries its fixed colour; both scores lie in [0, 90] |
| InstantScoring.MildExample | app.py:220-336 | 20 °C, 50 %, 1013 hPa, 5 m/s gives Moderate, Perfect, storm 0 No Risk, rain 0 Unlikely |
| InstantScoring.GaleExample | app.py:220-336 | −5 °C, 90 %, 995 hPa, 20 m/s gives Freezing, Uncomfortable, storm 90 High Risk, rain 90 Very Likely |
| InstantScoring.CreateManualWeatherData | app.py:187-217 | temperature and feels-like are the input; temp_min is two degrees below it and temp_max two above; gust is wind + 2; sea and ground level equal the pressure; visibility is 10 km; no rain or snow |
| EventPredictor.CurrentConditions | ml_models.py:182-186 | each value is either the last row's or its default: 20 °C, 50 %, 1013 hPa, 5 m/s, 10 km, hour 12 |
| EventPredictor.LastRowDecides | ml_models.py:182-186 | only the set of known columns and the last row matter; earlier rows and ignored columns change nothing |
| EventPredictor.AllKnownColumnsReadLastRow | ml_models.py:182-186 | with all six known columns present the conditions are exactly the last row's values |
| EventPredictor.DropColumnDefaults | ml_models.py:182-186 | removing one known column replaces that value alone by its default; removing an ignored column changes nothing |
| EventPredictor.DefaultsOnly | ml_models.py:182-186 | a table with none of the known columns is scored on the defaults alone |
| EventPredictor.Sum | ml_models.py:223 | a sum of non-negative factors is non-negative |
| EventPredictor.StormProbability | ml_models.py:188-224 | the storm probability lies in [0, 1] and is the sum of the four factors capped at 1.0 |
| EventPredictor.StormFactorsMaximum | ml_models.py:189-223 | the factors sum to at most 1.1; that maximum is reached and is capped to 1.0 |
| EventPredictor.StormProbabilityMonotone | ml_models.py:191-223 | lower pressure or visibility, or higher wind or humidity, never lowers the storm probability |
| EventPredictor.RiskLevel | ml_models.py:225 | the label is High above 0.7, Medium in (0.4, 0.7], Low otherwise |
| EventPredictor.PrecipitationProbability | ml_models.py:253-285 | the precipitation probability lies in [0, 1] and is the capped sum of three factors plus 0.2 exactly for T < 10 and humidity > 75 |
| EventPredictor.ColdHumidBonus | ml_models.py:280-284 | at high humidity, crossing 10 °C downward adds exactly 0.2 to the uncapped sum |
| EventPredictor.PressureTrendFactor | ml_models.py:230-240 | the factor is 0 for one row; otherwise it is +2 exactly when last-minus-first pressure exceeds 5 and −1 exactly when it is below −5 |
| EventPredictor.TrendFromEndpoints | ml_models.py:231-240 | only the first and last pressures decide the trend factor |
| EventPredictor.DiurnalFactor | ml_models.py:242-247 | +1 exactly for hours 6 to 18 inclusive, −1 otherwise |
| EventPredictor.TrendOf | ml_models.py:251 | Rising, Falling or Stable exactly as the change is positive, negative or zero |
| EventPredictor.TemperatureChange | ml_models.py:249-250 | the forecast change is one of −2, −1, 0, 1, 3 |
| EventPredictor.SingleRowChange | ml_models.py:231-251 | a single row contributes no trend, so the change is +1 by day and −1 by night, never Stable |
| EventPredictor.Select | ml_models.py:289-309 | the kept alerts are exactly the candidates that apply, in the candidates' order, and fewer than the candidates when one does not apply |
| EventPredictor.Alerts | ml_models.py:288-311 | an alert is listed if and only if its condition holds, in the fixed order; never both freezing and heat; at most six |
| EventPredictor.NoLowPressureAlertAt995 | ml_models.py:308-309 | a pressure of exactly 995 hPa gives no low-pressure alert |
| EventPredictor.Assess | ml_models.py:179-318 | the storm and precipitation probabilities are those of the current conditions, in [0, 1], with their labels; the alerts are those of the conditions; forecast minus current temperature is trend plus time-of-day factor and matches the Rising/Falling label; alerts as above; storm confidence High iff more than 5 rows, temperature confidence High iff a pressure column exists, precipitation confidence High iff humidity > 0 |
| EventPredictor.PredictWeatherEvents | ml_models.py:175-323 | the empty-table error appears exactly for an empty table; a multi-row table without a pressure column fails with the KeyError message; otherwise the result is the assessment |
| EventPredictor.MissingPressureColumnFails | ml_models.py:231-232 | two rows without a pressure column give "Real-time prediction failed: 'pressure'" |
| EventPredictor.TolerantTrendFactor | ml_models.py:231-240 | a missing pressure column reads as no trend; otherwise the factor is unchanged |
| EventPredictor.PredictWeatherEventsFixed | ml_models.py:175-320 | only an empty table fails; without a pressure column the temperature confidence is Medium and the forecast moves by the time-of-day factor only; on tables `predict_weather_events` as written can read, it agrees with it |
| DataProcessor.FirstCondition | data_processor.py:47-49 | the first weather condition is missing exactly when the `weather` key holds an empty list |
| DataProcessor.ProcessCurrent | data_processor.py:12-73 | no record exactly for a falsy answer or an empty condition list; visibility in km times 1000 is the metres given, or 0; rain and snow amounts are 0 when their key is absent |
| DataProcessor.ProcessCurrentRoundTrip | data_processor.py:26-67 | processing the complete answer built from any record gives that record back |
| DataProcessor.ProcessCurrentEmpty | data_processor.py:22-23 | `None` and the empty object give no record |
| DataProcessor.ProcessForecastItem | data_processor.py:92-122 | visibility in km times 1000 is the metres given, or 10000; the precipitation percentage is 100 × pop; rain and snow are 0 when absent |
| DataProcessor.ForecastPercentInRange | data_processor.py:110 | pop in [0, 1] gives a percentage in [0, 100] |
| DataProcessor.InsertByTime | data_processor.py:127 | inserting into time-ordered rows keeps them ordered and adds exactly the new row |
| DataProcessor.SortByTime | data_processor.py:127 | the result is time-ordered and a permutation of the input |
| DataProcessor.SortByTimeSorted | data_processor.py:126-127 | rows whose time stamps already strictly increase are left as they are |
| DataProcessor.ForecastRows | data_processor.py:91-124 | one row per list item |
| DataProcessor.ProcessForecast | data_processor.py:75-133 | no rows for a missing answer, a missing `list`, or an item with an empty `weather` list; otherwise one row per item, time-ordered, a permutation of the per-item rows |
| DataProcessor.ProcessForecastRoundTrip | data_processor.py:85-129 | rows with strictly increasing time stamps survive encoding as a forecast answer and processing back |
| WeatherAnalysis.HeatIndex | data_processor.py:155-160 | the heat index is the temperature below 27 °C; from 27 °C it moves by (humidity − 50)/20, above the temperature exactly when humidity > 50 |
| WeatherAnalysis.HeatIndexMonotoneInHumidity | data_processor.py:155-160 | at a fixed temperature, more humidity never lowers the heat index |
| WeatherAnalysis.ComfortLevelOf | data_processor.py:169-179 | each of the five comfort levels is returned exactly on its region of the first-match ladder |
| WeatherAnalysis.CalculateIndices | data_processor.py:135-191 | no indices without a reading; otherwise the heat index and comfort level of the reading's temperature and humidity, with both placeholders "Data not available"; heat index at least the temperature iff T < 27 or humidity ≥ 50; a Comfortable reading has heat index equal to its temperature |
| WeatherAnalysis.WetCount | data_processor.py:277 | the number of rows with probability above 50 never exceeds the number of rows |
| WeatherAnalysis.PrecipitationPatternOf | data_processor.py:277-286 | Frequent Rain iff 10 × wet > 7 × total; Occasional iff 3 × total < 10 × wet ≤ 7 × total; Mostly Dry otherwise |
| WeatherAnalysis.DetectPatterns | data_processor.py:242-286 | nothing for an empty forecast; otherwise stability from the distinct weather kinds and pattern from the wet-row count |
| WeatherAnalysis.DistinctMainsBound | data_processor.py:268 | there are never more distinct weather kinds than rows |
| WeatherAnalysis.StabilityOf | data_processor.py:268-274 | Stable exactly for at most two kinds of weather, Variable for three or four, Highly Variable for more than four |
| WeatherAnalysis.ShortForecastStable | data_processor.py:267-274 | a forecast of at most two rows is always Stable |
| WeatherAnalysis.AllWetCount | data_processor.py:277 | when every row is wet, the wet count is the number of rows |
| WeatherAnalysis.AllWetIsFrequent | data_processor.py:276-286 | a non-empty forecast whose rows are all wet shows Frequent Rain |
| Dashboard.Truncate | dashboard.py:261 | Python `int()`: the greatest integer not above a non-negative number, the least not below a negative one |
| Dashboard.CompassIndex | dashboard.py:261 | the compass index lies in 0..15 for every direction |
| Dashboard.CompassPoint | dashboard.py:258-265 | the name shown is one of the sixteen points |
| Dashboard.CompassSector | dashboard.py:259-264 | point k covers [22.5k − 11.25, 22.5k + 11.25), wrapping to north after sixteen |
| Dashboard.CompassLandmarks | dashboard.py:259-264 | 0° and 360° are N; 90°, 180°, 270° are E, S, W; 11.25° is NNE while 11.24° is N |
| Dashboard.StormColour | dashboard.py:149-152 | red exactly above 0.7, orange in (0.4, 0.7], green otherwise |
| Dashboard.StormColourMatchesRisk | dashboard.py:149-152 | the card colour and the storm risk label always agree |
| Dashboard.StormCardColour | dashboard.py:138-152 | no card for an error result; otherwise red exactly above 0.7, orange exactly in (0.4, 0.7], green exactly at or below 0.4 |
| Pipeline.ReadingFrame | app.py:173-176 | the one-row table of a reading is non-empty, readable, and yields that reading's values |
| Pipeline.FetchAndProcess | app.py:156-180 | the reading is the processed answer; predictions exist exactly when the reading does, always succeed, and equal those of `predict_weather_events` as written |
| Pipeline.ApiPathForecast | app.py:173-176 | on the API path, storm confidence is Medium, temperature confidence High, and the forecast moves one degree up by day and down by night |
| Pipeline.StormCardMatchesLabel | dashboard.py:149-152 | for actual predictions the card is red, orange or green exactly as the risk label is High, Medium or Low |
| Pipeline.ScorersAgree | app.py:264-317 | on a manual reading, 100 × the API storm probability equals the manual storm score, and 100 × the precipitation probability is the rain score plus the cold-humid 20, capped at 100 |
| Pipeline.StormTiersAgree | app.py:283-294 | the manual storm tier and the API storm label agree: High Risk is High, Medium Risk is Medium, Low or No Risk is Low |

## Left out

- Streamlit page flow, session state, the auto-refresh loop, CSS and all HTML rendering (app.py, dashboard.py other than the two fragments, visualizations.py): user interface with no scoring logic.
- weather_api.py: HTTP requests to the weather service. The model starts from the service's answer.
- The scikit-learn scaffolding: model construction, synthetic random training data, training, feature importance and `prepare_features`. These are library calls and randomness that the live path never uses.
- The catch-all `except Exception` handlers. Only the exceptions the modelled code raises by itself are modelled: the `IndexError` of an empty `weather` list and the `KeyError` of a missing pressure column. Ill-typed JSON (for example `"main": null`) and NaN cells are not modelled.
- `datetime.now()`, `fromtimestamp` and time zones. Time stamps are opaque integers. The manual builder takes the clock reading and the sunrise and sunset times as parameters. The local hour of a reading is a parameter of `Pipeline.ReadingFrame`.
- Wind chill (data_processor.py:162-167), because of its fractional power, and the air-quality and UV placeholders beyond their constant text.
- WeatherAnalysis.HeatIndex: not rounded to one decimal (`round(hi, 1)`), because the model uses exact reals.
- The least-squares temperature and pressure trend labels of `detect_weather_patterns` (`np.polyfit`) and `aggregate_daily_data` (pandas `groupby`). These are floating-point numerics and library behaviour.
- DataProcessor.SortByTime: pandas' default sort is not stable. The model fixes one order for rows with equal time stamps, and its contract promises only order and permutation. For the same reason, SortByTimeSorted and ProcessForecastRoundTrip speak only of rows whose time stamps strictly increase.
- Binary floating-point rounding at thresholds. The weights are exact, and the model makes no claim at sums such as 0.4 + 0.3 against 0.7.
- The forecast fetched in `fetch_and_process_data` is processed but never returned, so `Pipeline.FetchAndProcess` does not include it.

## Findings

| source | as written | input that shows it | evidently intended | confidence | as-written member | corrected member |
|---|---|---|---|---|---|---|
| ml_models.py:231-232 | With more than one row, the trend reads `weather_data['pressure']` without checking that the column exists. A table lacking it raises `KeyError`, and the whole prediction becomes the error "Real-time prediction failed: 'pressure'". | two rows with only temperature and humidity columns | A missing pressure column means no trend. The current pressure already defaults to 1013 for a missing column (line 184), and the temperature confidence has a branch for it (line 316). | medium; not executed; the app itself only passes one-row tables, where both versions agree | EventPredictor.PredictWeatherEvents, EventPredictor.MissingPressureColumnFails | EventPredictor.PredictWeatherEventsFixed |
