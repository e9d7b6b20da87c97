# Rain forecast aggregation for the Mexican drought dashboard, in Dafny

The dashboard in `app.py` fetches current weather and a 5-day, 3-hour forecast for each of the 32
Mexican states and draws them on a map. This project models the parts of it that compute something:

- **The forecast aggregator** `analyze_rain_forecast`. It makes one pass over the forecast samples
  and builds:
  - the number of rainy samples (amount at or above 1.0 mm);
  - the time of the first rainy sample;
  - a per-date table in first-seen order, holding the min and max temperature, the summed
    precipitation and an "any rain" flag;
  - the number of rainy dates;
  - the rain percentage.

  It is modelled as an imperative method (`ForecastAnalysis.AnalyzeRainForecast`). The method's
  loops update the counters and a map-plus-key-order table in place. It is proved equal to a
  functional specification (`ForecastSpec.Analysis`). The lemmas of `ForecastSpec` then say what
  that specification means, one sample at a time.
- **The region filter** of the sidebar, over the static table of states (`Regions`).
- **The marker colour** chosen from a state's rain percentage (`MapMarkers`).
- **The current-conditions projection**: optional fields read out of the current-weather payload
  (`CurrentConditions`).

Modelling choices:

- Temperatures and rain amounts are `real`.
- The local calendar date of a timestamp is a function parameter `dayOf: int -> int`. It stands for
  the local-time conversion and date formatting, which are not modelled.
- A JSON key that may be missing is an `Option`.
- A date entry's `fecha` is that date's key.
- `proxima_lluvia` is the sample's `dt`.

`proxima_lluvia` is the time of the first rainy sample in input order. That is the earliest rainy
timestamp only when the provider sends the samples in time order. The model follows input order:
`FirstRain` is defined by it, and `ForecastSpec.FirstRainIsFirst` proves that property.

## Model

| member | source | states |
|---|---|---|
| `ForecastAnalysis.AnalyzeRainForecast` | app.py:67-143 | the result equals `Analysis`: zero result without payload or `list`; otherwise rain-expected iff some rainy sample, the rainy-sample percentage, the first rainy time, the per-date table, and the number of flagged entries |
| `ForecastAnalysis.FoldPeriods` | app.py:91-124 | after the loop over the samples, the rainy-sample counter, the first rainy time, the dictionary's key order and its entry for each key equal `CountRain`, `FirstRain`, `Dates` and `DailySpec` of the samples, and the dictionary's keys are exactly the listed dates |
| `ForecastAnalysis.ValuesInOrder` | app.py:132 | `list(daily_data.values())` has one element per key, and its k-th element is the entry of the k-th key in insertion order; it lists only values of the dictionary, and every value when the key order holds every key |
| `ForecastAnalysis.SummariseDailyData` | app.py:127-132 | given the loop's dictionary, the rainy-date count and the list of its values are the daily table `DailySpec` of the samples and that table's number of flagged entries |
| `ForecastAnalysis.DailyListIsDailySpec` | app.py:132 | the dictionary built by the loop, listed in key order, is the daily table `DailySpec` of the samples |
| `ForecastAnalysis.CountRainyDays` | app.py:127-129 | the loop's count equals `RainyDayCount` of the entries in key order |
| `ForecastAnalysis.AddToDailyData` | app.py:112-124 | inserting a new date's entry or updating a known date's min, max, summed precipitation and rain flag keeps the dictionary equal, key by key and in insertion order, to the per-date summaries of the samples seen so far |
| `ForecastSpec.AnalysisOfNoSamples` | app.py:70-81 | absent payload, missing `list` or an empty `list` gives no rain, 0 %, 0 rainy days, no next rain, empty table |
| `ForecastSpec.AnalysisProperties` | app.py:91-143 | for every sample list: percentage in [0, 100]; rain expected iff some sample is rainy; next rain absent iff no rain expected; rainy days = number of distinct rainy dates, ≤ rainy samples ≤ samples, ≤ entries; one entry per distinct date in `Dates` order |
| `ForecastSpec.RainAmountCases` | app.py:93-95 | the amount is `rain['3h']` when both keys exist, else 0; a sample is rainy iff that amount is ≥ 1.0, bound inclusive |
| `ForecastSpec.CountRainBound` | app.py:104-105 | the rainy-sample count never exceeds the sample count |
| `ForecastSpec.CountRainPositive` | app.py:104-105 | the rainy-sample count is positive iff some sample reaches the threshold |
| `ForecastSpec.CountRainAll` | app.py:104-105 | the count equals the sample count iff every sample is rainy |
| `ForecastSpec.FirstRainNone` | app.py:107-109 | next rain is absent iff no sample reaches the threshold |
| `ForecastSpec.FirstRainIsFirst` | app.py:107-109 | a present next rain is the time of a rainy sample with no rainy sample before it in input order |
| `ForecastSpec.FirstRainStable` | app.py:108-109 | once set, next rain is unchanged by any further samples |
| `ForecastSpec.DatesMembership` | app.py:112-119 | a date has an entry iff some sample falls on it |
| `ForecastSpec.DatesNoDuplicates` | app.py:112-119 | each date has one entry, and there are no more entries than samples |
| `ForecastSpec.DatesFirstSeenOrder` | app.py:112-119 | the dates of every prefix of the samples are a prefix of the dates: entries appear in order of first occurrence |
| `ForecastSpec.TempsOnNonEmpty` | app.py:112-124 | a date has samples iff it has an entry, with one amount per temperature |
| `ForecastSpec.SeqMinIsMinimum` | app.py:121 | the running minimum is one of the values and at most each of them |
| `ForecastSpec.SeqMaxIsMaximum` | app.py:122 | the running maximum is one of the values and at least each of them |
| `ForecastSpec.TempsOnExact` | app.py:112-122 | the temperatures grouped under a date form the same set as the temperatures of the samples on that date (each grouped one comes from such a sample, and each such sample's is grouped) |
| `ForecastSpec.AnyRainOn` | app.py:118-124 | a date's rain flag holds iff one of its samples reaches the threshold |
| `ForecastSpec.DailyEntry` | app.py:112-124 | entry i has the i-th date; its min and max temperatures are attained by that date's samples and bound all of them; its precipitation is the sum of that date's amounts; its flag holds iff a sample of that date is rainy |
| `ForecastSpec.DaySummaryOtherDate` | app.py:111-124 | folding a sample leaves the entries of other dates unchanged |
| `ForecastSpec.DaySummaryNewDate` | app.py:112-119 | a sample on a new date creates an entry from that sample alone |
| `ForecastSpec.DaySummaryKnownDate` | app.py:120-124 | a sample on a known date updates min, max, adds its amount and ORs its rain flag |
| `ForecastSpec.RainyDatesMembership` | app.py:127-129 | a date is rainy iff one of its samples reaches the threshold |
| `ForecastSpec.RainyDatesBound` | app.py:127-129 | there are no more rainy dates than rainy samples |
| `ForecastSpec.FlaggedDatesMembership` | app.py:127-129 | a date is flagged iff some entry with that date has its flag set |
| `ForecastSpec.RainyDayCountIsCardinality` | app.py:127-129 | over entries with distinct dates, counting flagged entries counts flagged dates, and is at most the number of entries |
| `ForecastSpec.RainyDaysAreRainyDates` | app.py:127-129 | the rainy-day count is the number of distinct rainy dates, at most the rainy-sample count and at most the date count |
| `ForecastSpec.Probability` | app.py:135 | 0 without samples; otherwise percentage × total = 100 × rainy samples |
| `ForecastSpec.ProbabilityRange` | app.py:135 | the percentage lies in [0, 100]; with samples it is 0 iff none is rainy and 100 iff all are |
| `ForecastSpec.ProbabilityMonotonic` | app.py:135 | more rainy samples out of the same total never lower the percentage |
| `ForecastSpec.ExampleDayGrouping` | app.py:112-124 | four samples on one date are grouped under that single date, with their temperatures and amounts in input order |
| `ForecastSpec.ExampleDayFolds` | app.py:121-124 | for that date: min 18.0, max 22.5, precipitation 1.7, rain flag set |
| `ForecastSpec.ExampleDayRain` | app.py:104-109 | one of the four samples is rainy, and it supplies next rain |
| `ForecastSpec.ExampleDayAnalysis` | app.py:67-143 | amounts 0, 1.2, 0, 0.5 on one date give 25 %, one rainy day, and one entry with precipitation 1.7 flagged rainy |
| `Regions.InRegion` | app.py:190-194 | the comprehension keeps no more states than the table has, and every kept state carries the chosen region tag |
| `Regions.InRegionMembership` | app.py:190-194 | a state is kept iff it is in the table and carries the chosen region |
| `Regions.InRegionAppend` | app.py:190-194 | filtering distributes over concatenation, so kept states stay in table order |
| `Regions.RegionsPartition` | app.py:146-194 | the three regions split any table: their sizes add up to the table's and their multisets to its multiset |
| `Regions.SelectStates` | app.py:189-196 | "Norte", "Centro" or "Sur" keeps exactly that region's states in table order; any other selection keeps the whole table |
| `Regions.SelectStatesIsSubset` | app.py:189-196 | every shown state is in the table, and a region choice shows only that region |
| `Regions.RegionCountsA` | app.py:147-154 | the first eight rows hold 4 northern, 2 central and 2 southern states |
| `Regions.RegionCountsB` | app.py:155-162 | the next eight rows hold 1 northern, 6 central and 1 southern state |
| `Regions.RegionCountsC` | app.py:163-170 | the next eight rows hold 1 northern, 5 central and 2 southern states |
| `Regions.RegionCountsD` | app.py:171-178 | the last eight rows hold 3 northern, 2 central and 3 southern states |
| `Regions.InRegionOfTable` | app.py:146-194 | filtering the table is filtering its four blocks and concatenating |
| `Regions.TableRegions` | app.py:146-196 | the table has 32 states: 9 Norte, 15 Centro, 8 Sur; "Todos los estados" shows all of them |
| `MapMarkers.MarkerColour` | app.py:289-296 | green iff p > 50, light blue iff 30 < p ≤ 50, orange iff 10 < p ≤ 30, red iff p ≤ 10; the colour string handed to the map is "green", "lightblue", "orange" or "red" on exactly those intervals |
| `MapMarkers.MarkerColourMonotonic` | app.py:289-296 | a higher percentage never gives a drier colour |
| `MapMarkers.MarkerOfAnalysis` | app.py:135-138 | a forecast with no rainy sample is drawn red; a non-empty forecast whose samples are all rainy is drawn green |
| `CurrentConditions.ExtractConditions` | app.py:234-251 | without payload or `main`, every field is absent; with `main`, temp, humidity and pressure are its values; wind speed is present iff `main`, `wind` and `speed` all are; description and icon come from the first `weather` entry when the list is present and non-empty, and are absent otherwise |
| `CurrentConditions.PresentFieldsHaveSources` | app.py:241-251 | any present field implies `main` was present; a present description or icon implies a non-empty `weather` list |

## Left out

- The HTTP fetchers `get_current_weather` and `get_forecast` (app.py:32-64) are network I/O. Their
  result enters the model as an `Option` payload: `None` means the fetch failed.
- The one-hour result caching (app.py:31, 49) is framework memoisation and is not modelled.
- The page, sidebar, buttons, progress bar and session-state lifecycle are UI plumbing and are not
  modelled. The per-state loop that joins each state with its current conditions and analysis
  (app.py:217-276) is not modelled either, apart from the field extraction at app.py:234-251, which
  `CurrentConditions.ExtractConditions` models.
- The map markers' popups, the legend, the map itself and all charts are rendering through foreign
  libraries (app.py:284-341, 406-610). Only the colour choice is modelled.
- The pandas sorting, grouping and statistics are floating-point library code and are not modelled.
- The latitudes and longitudes of the state table are static data the filter does not read. The
  table keeps only names and region tags.
- Local-time conversion and date formatting (app.py:99-100) are not modelled. They are the
  parameter `dayOf`.
- Floating-point arithmetic is not modelled. Sums and the percentage are exact `real` arithmetic.
- A sample with no `dt`, no `main` or no `main.temp` makes the source raise `KeyError`. The model's
  sample type always has these fields, so that error path is not modelled.
- A `rain` object whose `3h` value is JSON `null` makes the source raise `TypeError` when comparing
  it with the threshold. The model's amount is always a number.
- Payload values of the wrong JSON type make the source raise, and the model's types exclude them:
  a `null` `list` (app.py:81), a `null` `rain` (app.py:94), a `main` or `wind` that is not an
  object (app.py:242-247), and a `null` `weather` (app.py:249).
- AnalyzeRainForecast: `probabilidad_lluvia` is the unrounded percentage. The source applies
  `round(…, 1)` (Python float rounding), which is not modelled.
- MarkerColour: applied to the unrounded percentage. The source buckets the rounded value, which can
  differ right at a threshold (for example, 50.04 rounds to 50.0).
