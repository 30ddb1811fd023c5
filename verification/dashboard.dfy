/** The two pieces of logic inside the dashboard's rendering
    (`Dashboard.display_weather_details` and `Dashboard.display_predictions`
    in dashboard.py): naming a wind direction by one of sixteen compass
    points, and colouring the storm card. */
module Dashboard {
  import opened Common
  import opened EventPredictor

  // ---------------------------------------------------------------------------
  // Compass points
  // ---------------------------------------------------------------------------

  /** The sixteen points, clockwise from north, 22.5° apart. */
  const CompassPoints: seq<string> :=
    ["N", "NNE", "NE", "ENE", "E", "ESE", "SE", "SSE",
     "S", "SSW", "SW", "WSW", "W", "WNW", "NW", "NNW"]

  /** Python's `int()` of a float: truncation toward zero. */
  function Truncate(x: real): (n: int)
    ensures 0.0 <= x ==> n as real <= x < n as real + 1.0
    ensures x < 0.0 ==> n as real - 1.0 < x <= n as real
  {
    if 0.0 <= x then x.Floor else -((-x).Floor)
  }

  /** The index of the compass point of a direction in degrees:
      `int((d + 11.25) / 22.5) % 16`. Python's `%` by a positive number and
      Dafny's `%` agree (both give a remainder in [0, 16)). */
  function CompassIndex(d: real): (i: int)
    ensures 0 <= i < 16
  {
    Truncate((d + 11.25) / 22.5) % 16
  }

  /** The compass point shown for a direction. */
  function CompassPoint(d: real): (name: string)
    ensures name in CompassPoints
  {
    CompassPoints[CompassIndex(d)]
  }

  /** Point `k` covers the 22.5°-wide sector starting 11.25° before its
      bearing of `22.5 k` degrees, closed below and open above; past the
      sixteenth point the count wraps round to north. */
  lemma CompassSector(k: nat, d: real)
    requires 22.5 * k as real - 11.25 <= d < 22.5 * k as real + 11.25
    ensures CompassIndex(d) == k % 16
  {
  }

  /** North at both ends of the circle, the cardinal points at 90°, 180° and
      270°, and the sector boundary 11.25° belonging to NNE. */
  lemma CompassLandmarks()
    ensures CompassPoint(0.0) == "N" && CompassPoint(360.0) == "N"
    ensures CompassPoint(90.0) == "E" && CompassPoint(180.0) == "S" && CompassPoint(270.0) == "W"
    ensures CompassPoint(11.25) == "NNE" && CompassPoint(11.24) == "N"
  {
    CompassSector(0, 0.0);
    CompassSector(16, 360.0);
    CompassSector(4, 90.0);
    CompassSector(8, 180.0);
    CompassSector(12, 270.0);
    CompassSector(1, 11.25);
    CompassSector(0, 11.24);
  }

  // ---------------------------------------------------------------------------
  // Storm card colour
  // ---------------------------------------------------------------------------

  /** The colour of the storm percentage: red above 70 %, orange above 40 %,
      green otherwise. */
  function StormColour(probability: real): (colour: Colour)
    ensures colour == Red <==> probability > 0.7
    ensures colour == Orange <==> 0.4 < probability <= 0.7
    ensures colour == Green <==> probability <= 0.4
  {
    var percent := probability * 100.0;
    if percent > 70.0 then Red else if percent > 40.0 then Orange else Green
  }

  /** The card colour and the risk label printed under it always agree. */
  lemma StormColourMatchesRisk(probability: real)
    ensures StormColour(probability) == Red <==> RiskLevel(probability) == High
    ensures StormColour(probability) == Orange <==> RiskLevel(probability) == Medium
    ensures StormColour(probability) == Green <==> RiskLevel(probability) == Low
  {
  }

  /** The storm card of `display_predictions`: no card for an error result,
      otherwise the colour of the predicted probability. */
  function StormCardColour(o: Outcome): (colour: Option<Colour>)
    ensures colour.None? <==> o.Failed?
    ensures o.Predicted? ==>
      && (colour == Some(Red) <==> o.predictions.stormProbability > 0.7)
      && (colour == Some(Orange) <==> 0.4 < o.predictions.stormProbability <= 0.7)
      && (colour == Some(Green) <==> o.predictions.stormProbability <= 0.4)
  {
    match o
    case Failed(_) => None
    case Predicted(p) => Some(StormColour(p.stormProbability))
  }
}
