/**
 * The current-conditions fields that app.py reads from the provider's
 * current-weather payload. A key that is missing gives an absent field, never a
 * default number.
 */
module CurrentConditions {
  import opened Wrappers

  /** The `main` object; each key may be missing. */
  datatype MainBlock = MainBlock(temp: Option<real>, humidity: Option<int>, pressure: Option<int>)

  /** The `wind` object. */
  datatype WindBlock = WindBlock(speed: Option<real>)

  /** One entry of the `weather` list. */
  datatype WeatherEntry = WeatherEntry(description: Option<string>, icon: Option<string>)

  /** A current-weather payload; each top-level key may be missing. */
  datatype CurrentPayload = CurrentPayload(main: Option<MainBlock>, wind: Option<WindBlock>, weather: Option<seq<WeatherEntry>>)

  /** The six current fields stored per state. */
  datatype Conditions = Conditions(
    temp: Option<real>,
    description: Option<string>,
    humidity: Option<int>,
    pressure: Option<int>,
    windSpeed: Option<real>,
    icon: Option<string>)

  const NoConditions := Conditions(None, None, None, None, None, None)

  /** The fields of `main`, or none when `main` is missing. */
  predicate HasMain(currentData: Option<CurrentPayload>)
  {
    currentData.Some? && currentData.value.main.Some?
  }

  function ExtractConditions(currentData: Option<CurrentPayload>): (r: Conditions)
    // no payload, or no `main`: every field is absent
    ensures !HasMain(currentData) ==> r == NoConditions
    // `main` present: temperature, humidity and pressure are its `.get` values
    ensures HasMain(currentData) ==>
      var m := currentData.value.main.value;
      r.temp == m.temp && r.humidity == m.humidity && r.pressure == m.pressure
    // wind speed is present only through `main` and `wind` both being there
    ensures r.windSpeed.Some? <==>
      HasMain(currentData) && currentData.value.wind.Some? && currentData.value.wind.value.speed.Some?
    ensures r.windSpeed.Some? ==> r.windSpeed == currentData.value.wind.value.speed
    // description and icon come from the first `weather` entry, when `main` is there and the list is non-empty
    ensures HasMain(currentData) && currentData.value.weather.Some? && |currentData.value.weather.value| > 0 ==>
      var w := currentData.value.weather.value[0];
      r.description == w.description && r.icon == w.icon
    ensures !(HasMain(currentData) && currentData.value.weather.Some? && |currentData.value.weather.value| > 0) ==>
      r.description.None? && r.icon.None?
  {
    if !HasMain(currentData) then NoConditions
    else
      var data := currentData.value;
      var m := data.main.value;
      var windSpeed := if data.wind.Some? then data.wind.value.speed else None;
      var first := if data.weather.Some? && |data.weather.value| > 0 then Some(data.weather.value[0]) else None;
      Conditions(
        m.temp,
        if first.Some? then first.value.description else None,
        m.humidity,
        m.pressure,
        windSpeed,
        if first.Some? then first.value.icon else None)
  }

  /** Every present field traces back to a present key of the payload. */
  lemma PresentFieldsHaveSources(currentData: Option<CurrentPayload>)
    ensures var r := ExtractConditions(currentData);
      (r.temp.Some? || r.humidity.Some? || r.pressure.Some? || r.windSpeed.Some? ||
       r.description.Some? || r.icon.Some?) ==> HasMain(currentData)
    ensures var r := ExtractConditions(currentData);
      (r.description.Some? || r.icon.Some?) ==>
        currentData.value.weather.Some? && |currentData.value.weather.value| > 0
  {
  }
}
