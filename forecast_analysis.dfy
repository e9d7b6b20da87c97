/**
 * `analyze_rain_forecast` of app.py as methods: one pass over the samples that
 * updates the rainy-sample counter, the first rainy time and the per-date
 * table in place; a pass over the table that counts the rainy dates; and the
 * assembly of the result. The postconditions tie each phase to the functions
 * of `ForecastSpec`, whose meaning the lemmas there establish.
 */
module ForecastAnalysis {
  import opened Wrappers
  import opened ForecastSpec

  method AnalyzeRainForecast(forecastData: Option<Payload>, dayOf: int -> int) returns (r: RainAnalysis)
    ensures r == Analysis(forecastData, dayOf)
    ensures forecastData.None? || forecastData.value.list.None? ==> r == ZeroAnalysis
    ensures forecastData.Some? && forecastData.value.list.Some? ==>
      var s := forecastData.value.list.value;
      && r.rainExpected == (CountRain(s) > 0)
      && r.probability == Probability(CountRain(s), |s|)
      && r.nextRain == FirstRain(s)
      && r.daily == DailySpec(s, dayOf)
      && r.rainyDays == RainyDayCount(r.daily)
  {
    if forecastData.None? || forecastData.value.list.None? {
      return ZeroAnalysis;
    }
    var periods := forecastData.value.list.value;
    var totalPeriods := |periods|;

    var rainPeriods, firstRain, dailyData, dateOrder := FoldPeriods(periods, dayOf);
    var rainDays, dailyDataList := SummariseDailyData(dailyData, dateOrder, periods, dayOf);

    var rainProbability := if totalPeriods > 0 then (rainPeriods as real / totalPeriods as real) * 100.0 else 0.0;

    r := RainAnalysis(rainPeriods > 0, rainProbability, rainDays, firstRain, dailyDataList);
  }

  /**
   * The loop over `forecast_data['list']`: counts the rainy samples, keeps the
   * first rainy time, and inserts into or updates the dictionary entry of each
   * sample's date. `dateOrder` is the dictionary's key order.
   */
  method FoldPeriods(periods: seq<Period>, dayOf: int -> int)
    returns (rainPeriods: nat, firstRain: Option<int>, dailyData: map<int, DailySummary>, dateOrder: seq<int>)
    ensures rainPeriods == CountRain(periods)
    ensures firstRain == FirstRain(periods)
    ensures dateOrder == Dates(periods, dayOf)
    ensures forall d :: d in dailyData <==> d in dateOrder
    ensures forall k :: 0 <= k < |dateOrder| ==>
      dateOrder[k] in dailyData && dailyData[dateOrder[k]] == DailySpec(periods, dayOf)[k]
  {
    rainPeriods, firstRain := 0, None;
    dailyData, dateOrder := map[], [];

    var i := 0;
    while i < |periods|
      invariant 0 <= i <= |periods|
      invariant rainPeriods == CountRain(periods[..i])
      invariant firstRain == FirstRain(periods[..i])
      invariant TableMatches(dailyData, dateOrder, periods[..i], dayOf)
    {
      var period := periods[i];
      var rainAmount := 0.0;
      if period.rain.Some? && period.rain.value.threeHours.Some? {
        rainAmount := period.rain.value.threeHours.value;
      }
      assert rainAmount == RainAmount(period);
      var dateKey := dayOf(period.dt);
      var temp := period.temp;

      if rainAmount >= Threshold {
        rainPeriods := rainPeriods + 1;
        if firstRain.None? {
          firstRain := Some(period.dt);
        }
      }

      ghost var done := periods[..i + 1];
      assert Init(done) == periods[..i] && Last(done) == period;
      CountersAfterSample(done);
      dailyData, dateOrder := AddToDailyData(dailyData, dateOrder, dateKey, temp, rainAmount, done, dayOf);
      i := i + 1;
    }
    assert periods[..i] == periods;
    TableValuesAreDailySpec(dailyData, dateOrder, periods, dayOf);
  }

  /**
   * One sample's insert-or-update of `daily_data`: a new date gets an entry
   * made from the sample alone; a known date has its minimum and maximum
   * temperature, summed precipitation and rain flag updated.
   */
  method AddToDailyData(dailyData: map<int, DailySummary>, dateOrder: seq<int>, dateKey: int, temp: real, rainAmount: real,
                        ghost done: seq<Period>, dayOf: int -> int)
    returns (dailyData': map<int, DailySummary>, dateOrder': seq<int>)
    requires done != [] && TableMatches(dailyData, dateOrder, Init(done), dayOf)
    requires dateKey == dayOf(Last(done).dt) && temp == Last(done).temp && rainAmount == RainAmount(Last(done))
    ensures TableMatches(dailyData', dateOrder', done, dayOf)
  {
    if dateKey !in dailyData {
      dailyData' := dailyData[dateKey := DailySummary(dateKey, temp, temp, rainAmount, rainAmount >= Threshold)];
      dateOrder' := dateOrder + [dateKey];
    } else {
      var entry := dailyData[dateKey];
      dailyData' := dailyData[dateKey := entry.(
        minTemp := Min(entry.minTemp, temp),
        maxTemp := Max(entry.maxTemp, temp),
        precipitation := entry.precipitation + rainAmount,
        hasRain := entry.hasRain || rainAmount >= Threshold)];
      dateOrder' := dateOrder;
    }
    TableAfterSample(dailyData, dateOrder, dailyData', dateOrder', done, dayOf);
  }

  /** `list(daily_data.values())`: the entries in key order. */
  function ValuesInOrder(dailyData: map<int, DailySummary>, dateOrder: seq<int>): (values: seq<DailySummary>)
    requires forall k :: 0 <= k < |dateOrder| ==> dateOrder[k] in dailyData
    ensures |values| == |dateOrder|
    // the k-th listed value is the entry of the k-th key: the dictionary's key order
    ensures forall k :: 0 <= k < |dateOrder| ==> values[k] == dailyData[dateOrder[k]]
    // only values of the dictionary are listed ...
    ensures forall v :: v in values ==> v in dailyData.Values
    // ... and, when the key order lists every key, every value of the dictionary is listed
    ensures (forall d :: d in dailyData ==> d in dateOrder) ==> forall d :: d in dailyData ==> dailyData[d] in values
  {
    var values := seq(|dateOrder|, k requires 0 <= k < |dateOrder| => dailyData[dateOrder[k]]);
    assert (forall d :: d in dailyData ==> d in dateOrder) ==> forall d :: d in dailyData ==> dailyData[d] in values by {
      if forall d :: d in dailyData ==> d in dateOrder {
        forall d | d in dailyData ensures dailyData[d] in values {
          var k :| 0 <= k < |dateOrder| && dateOrder[k] == d;
          assert values[k] == dailyData[d];
        }
      }
    }
    values
  }

  /**
   * The steps after the loop: count the rainy dates of the dictionary, then
   * list its values. Given the loop's dictionary, the list is the daily table
   * and the count is its number of flagged entries.
   */
  method SummariseDailyData(dailyData: map<int, DailySummary>, dateOrder: seq<int>, ghost periods: seq<Period>, dayOf: int -> int)
    returns (rainDays: nat, dailyDataList: seq<DailySummary>)
    requires dateOrder == Dates(periods, dayOf)
    requires forall k :: 0 <= k < |dateOrder| ==>
      dateOrder[k] in dailyData && dailyData[dateOrder[k]] == DailySpec(periods, dayOf)[k]
    ensures dailyDataList == DailySpec(periods, dayOf)
    ensures rainDays == RainyDayCount(dailyDataList)
  {
    rainDays := CountRainyDays(dailyData, dateOrder);
    dailyDataList := ValuesInOrder(dailyData, dateOrder);
    DailyListIsDailySpec(dailyData, dateOrder, periods, dayOf);
  }

  /** The loop's dictionary, listed in key order, is the daily table of the samples. */
  lemma DailyListIsDailySpec(dailyData: map<int, DailySummary>, dateOrder: seq<int>, periods: seq<Period>, dayOf: int -> int)
    requires dateOrder == Dates(periods, dayOf)
    requires forall k :: 0 <= k < |dateOrder| ==>
      dateOrder[k] in dailyData && dailyData[dateOrder[k]] == DailySpec(periods, dayOf)[k]
    ensures ValuesInOrder(dailyData, dateOrder) == DailySpec(periods, dayOf)
  {
    var values, spec := ValuesInOrder(dailyData, dateOrder), DailySpec(periods, dayOf);
    assert |values| == |spec|;
    forall k | 0 <= k < |spec| ensures values[k] == spec[k] {
      assert values[k] == dailyData[dateOrder[k]];
    }
  }

  /** The loop over `daily_data.values()` that counts the entries whose rain flag is set. */
  method CountRainyDays(dailyData: map<int, DailySummary>, dateOrder: seq<int>) returns (rainDays: nat)
    requires forall k :: 0 <= k < |dateOrder| ==> dateOrder[k] in dailyData
    ensures rainDays == RainyDayCount(ValuesInOrder(dailyData, dateOrder))
  {
    ghost var values := ValuesInOrder(dailyData, dateOrder);
    rainDays := 0;
    var j := 0;
    while j < |dateOrder|
      invariant 0 <= j <= |dateOrder|
      invariant rainDays == RainyDayCount(values[..j])
    {
      assert Init(values[..j + 1]) == values[..j];
      if dailyData[dateOrder[j]].hasRain {
        rainDays := rainDays + 1;
      }
      j := j + 1;
    }
    assert values[..j] == values;
  }
}
