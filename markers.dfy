/** The colour of a state's map marker, bucketed from its rain percentage (app.py). */
module MapMarkers {
  import opened Wrappers
  import opened ForecastSpec

  datatype Colour = Green | LightBlue | Orange | Red

  /** The colour name handed to the map library. */
  function ColourName(c: Colour): string
  {
    match c
    case Green => "green"
    case LightBlue => "lightblue"
    case Orange => "orange"
    case Red => "red"
  }

  /** Wetter buckets rank higher: red, orange, light blue, green. */
  function Rank(c: Colour): nat
  {
    match c
    case Red => 0
    case Orange => 1
    case LightBlue => 2
    case Green => 3
  }

  /** Strict thresholds of 50, 30 and 10 percent, so a percentage on a threshold falls in the drier bucket. */
  function MarkerColour(probability: real): (c: Colour)
    ensures c == Green <==> probability > 50.0
    ensures c == LightBlue <==> 30.0 < probability <= 50.0
    ensures c == Orange <==> 10.0 < probability <= 30.0
    ensures c == Red <==> probability <= 10.0
    // the colour string handed to the map library, bucket by bucket
    ensures ColourName(c) == "green" <==> probability > 50.0
    ensures ColourName(c) == "lightblue" <==> 30.0 < probability <= 50.0
    ensures ColourName(c) == "orange" <==> 10.0 < probability <= 30.0
    ensures ColourName(c) == "red" <==> probability <= 10.0
  {
    if probability > 50.0 then Green
    else if probability > 30.0 then LightBlue
    else if probability > 10.0 then Orange
    else Red
  }

  /** A higher percentage never gives a drier colour. */
  lemma MarkerColourMonotonic(p: real, q: real)
    requires p <= q
    ensures Rank(MarkerColour(p)) <= Rank(MarkerColour(q))
  {
  }

  /**
   * A forecast with no rainy sample (or no samples at all) is drawn red; one
   * in which every one of its samples is rainy is drawn green.
   */
  lemma MarkerOfAnalysis(forecastData: Option<Payload>, dayOf: int -> int)
    ensures var r := Analysis(forecastData, dayOf);
      !r.rainExpected ==> MarkerColour(r.probability) == Red
    ensures forecastData.Some? && forecastData.value.list.Some? && forecastData.value.list.value != [] &&
            (forall i :: 0 <= i < |forecastData.value.list.value| ==> IsRain(forecastData.value.list.value[i])) ==>
      MarkerColour(Analysis(forecastData, dayOf).probability) == Green
  {
    if forecastData.Some? && forecastData.value.list.Some? {
      var s := forecastData.value.list.value;
      CountRainBound(s);
      CountRainAll(s);
      ProbabilityRange(CountRain(s), |s|);
    }
  }
}
