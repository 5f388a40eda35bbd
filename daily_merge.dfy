/**
 * Concatenating the per-chunk upstream responses into one dataset of named
 * series. Both merges of the source (DataProcessor.MergeResults and
 * WeatherService.MergeWeatherDataResults) run this loop; they differ only in
 * the name of the date series and in what they do afterwards.
 */
module DailyMerge {
  import opened Dates
  import opened Models

  const TemperatureMaxKey := "temperature_2m_max"
  const TemperatureMinKey := "temperature_2m_min"
  const HumidityKey := "relative_humidity_2m"
  const PrecipitationSumKey := "precipitation_sum"
  const PrecipitationHoursKey := "precipitation_hours"
  const WindSpeedKey := "wind_speed_10m_max"
  const RadiationKey := "shortwave_radiation_sum"
  const TemperatureAverageKey := "temperature_2m_avg"

  /** The seven value series a response can carry, in the order the merge visits them. */
  const ValueKeys: seq<string> := [TemperatureMaxKey, TemperatureMinKey, HumidityKey,
    PrecipitationSumKey, PrecipitationHoursKey, WindSpeedKey, RadiationKey]

  /** The upstream array a merged key is filled from. */
  function SeriesOf(daily: DailyData, key: string): seq<real> {
    if key == TemperatureMaxKey then daily.temperature2mMax
    else if key == TemperatureMinKey then daily.temperature2mMin
    else if key == HumidityKey then daily.relativeHumidity2m
    else if key == PrecipitationSumKey then daily.precipitationSum
    else if key == PrecipitationHoursKey then daily.precipitationHours
    else if key == WindSpeedKey then daily.windSpeed
    else if key == RadiationKey then daily.shortWaveRadiationSum
    else []
  }

  /** All chunks' dates, in chunk order. */
  function ConcatTimes(results: seq<WeatherData>): seq<Day> {
    if results == [] then []
    else ConcatTimes(results[..|results| - 1]) + results[|results| - 1].daily.time
  }

  /** All chunks' values of one series, in chunk order. */
  function ConcatSeries(results: seq<WeatherData>, key: string): seq<real> {
    if results == [] then []
    else ConcatSeries(results[..|results| - 1], key) + SeriesOf(results[|results| - 1].daily, key)
  }

  function DateValues(days: seq<Day>): (values: seq<Value>)
    ensures |values| == |days|
    ensures forall i :: 0 <= i < |days| ==> values[i] == DateValue(days[i])
  {
    seq(|days|, i requires 0 <= i < |days| => DateValue(days[i]))
  }

  function NumberValues(xs: seq<real>): (values: seq<Value>)
    ensures |values| == |xs|
    ensures forall i :: 0 <= i < |xs| ==> values[i] == NumberValue(xs[i])
  {
    seq(|xs|, i requires 0 <= i < |xs| => NumberValue(xs[i]))
  }

  /** The merged dataset: the date series under dateKey, and each value series that some chunk supplied. */
  function MergedKeys(results: seq<WeatherData>, dateKey: string): set<string> {
    {dateKey} + (set k | k in ValueKeys && ConcatSeries(results, k) != [])
  }

  function MergedDaily(results: seq<WeatherData>, dateKey: string): map<string, seq<Value>> {
    map k | k in MergedKeys(results, dateKey) ::
      if k == dateKey then DateValues(ConcatTimes(results)) else NumberValues(ConcatSeries(results, k))
  }

  /** What the merged dataset holds under one key. */
  lemma MergedDailyAt(results: seq<WeatherData>, dateKey: string, k: string)
    requires dateKey !in ValueKeys
    ensures k in MergedDaily(results, dateKey) <==> k == dateKey || (k in ValueKeys && ConcatSeries(results, k) != [])
    ensures k == dateKey ==> MergedDaily(results, dateKey)[k] == DateValues(ConcatTimes(results))
    ensures k in ValueKeys && k in MergedDaily(results, dateKey) ==>
      MergedDaily(results, dateKey)[k] == NumberValues(ConcatSeries(results, k))
  {
    assert k in MergedKeys(results, dateKey) <==> k == dateKey || (k in ValueKeys && ConcatSeries(results, k) != []);
  }

  /** The state of the merge for one value key after the chunks `results`. */
  ghost predicate KeyMerged(daily: map<string, seq<Value>>, results: seq<WeatherData>, key: string) {
    (key in daily <==> ConcatSeries(results, key) != []) &&
    (key in daily ==> daily[key] == NumberValues(ConcatSeries(results, key)))
  }

  /** The state of the merge after the chunks `results`. */
  ghost predicate IsMergeOf(daily: map<string, seq<Value>>, results: seq<WeatherData>, dateKey: string) {
    dateKey in daily && daily[dateKey] == DateValues(ConcatTimes(results)) &&
    (forall k :: k in daily ==> k == dateKey || k in ValueKeys) &&
    (forall m :: 0 <= m < |ValueKeys| ==> KeyMerged(daily, results, ValueKeys[m]))
  }

  /** A day is among the merged dates exactly when some chunk reported it. */
  lemma {:induction false} ConcatTimesMembers(results: seq<WeatherData>, d: Day)
    ensures d in ConcatTimes(results) <==> exists j :: 0 <= j < |results| && d in results[j].daily.time
  {
    if results != [] {
      var init := results[..|results| - 1];
      ConcatTimesMembers(init, d);
      if d in ConcatTimes(init) {
        var j :| 0 <= j < |init| && d in init[j].daily.time;
        assert results[j] == init[j];
      }
      if exists j :: 0 <= j < |results| && d in results[j].daily.time {
        var j :| 0 <= j < |results| && d in results[j].daily.time;
        if j < |init| {
          assert init[j] == results[j];
        }
      }
    }
  }

  /** The merged dates are as many as all chunks' dates together. */
  lemma {:induction false} ConcatTimesLength(results: seq<WeatherData>, n: nat)
    requires n <= |results|
    ensures |ConcatTimes(results[..n])| == TimesCount(results, n)
  {
    if n > 0 {
      assert results[..n][..n - 1] == results[..n - 1];
      ConcatTimesLength(results, n - 1);
    }
  }

  /** The number of dates the first n chunks reported. */
  function TimesCount(results: seq<WeatherData>, n: nat): nat
    requires n <= |results|
  {
    if n == 0 then 0 else TimesCount(results, n - 1) + |results[n - 1].daily.time|
  }

  lemma ValueKeysDistinct()
    ensures forall i, j :: 0 <= i < j < |ValueKeys| ==> ValueKeys[i] != ValueKeys[j]
    ensures TemperatureAverageKey !in ValueKeys
    ensures "Date" !in ValueKeys && "time" !in ValueKeys
  {
  }

  lemma NumberValuesAppend(xs: seq<real>, ys: seq<real>)
    ensures NumberValues(xs + ys) == NumberValues(xs) + NumberValues(ys)
  {
  }

  lemma DateValuesAppend(xs: seq<Day>, ys: seq<Day>)
    ensures DateValues(xs + ys) == DateValues(xs) + DateValues(ys)
  {
  }

  /** Merging one more chunk appends its dates and its values. */
  lemma ConcatAppend(done: seq<WeatherData>, result: WeatherData)
    ensures ConcatTimes(done + [result]) == ConcatTimes(done) + result.daily.time
    ensures forall key :: ConcatSeries(done + [result], key) == ConcatSeries(done, key) + SeriesOf(result.daily, key)
  {
    assert (done + [result])[..|done|] == done;
  }

  /** One `if (series.Any())` block takes the merge state of its key over one more chunk. */
  lemma AppendKeepsMerged(before: map<string, seq<Value>>, after: map<string, seq<Value>>, done: seq<WeatherData>,
    result: WeatherData, key: string)
    requires KeyMerged(before, done, key)
    requires SeriesOf(result.daily, key) == [] ==> after == before
    requires SeriesOf(result.daily, key) != [] ==> after == before[key :=
      (if key in before then before[key] else []) + NumberValues(SeriesOf(result.daily, key))]
    ensures KeyMerged(after, done + [result], key)
  {
    ConcatAppend(done, result);
    NumberValuesAppend(ConcatSeries(done, key), SeriesOf(result.daily, key));
  }

  /** The merge state of a key survives changes to the other keys. */
  lemma KeyMergedFrame(before: map<string, seq<Value>>, after: map<string, seq<Value>>, results: seq<WeatherData>,
    key: string)
    requires KeyMerged(before, results, key)
    requires key in after <==> key in before
    requires key in before ==> after[key] == before[key]
    ensures KeyMerged(after, results, key)
  {
  }

  lemma PrefixStep(results: seq<WeatherData>, i: nat)
    requires i < |results|
    ensures results[..i + 1] == results[..i] + [results[i]]
  {
  }

  /** The merge state determines the dataset. */
  lemma MergeIsUnique(daily: map<string, seq<Value>>, results: seq<WeatherData>, dateKey: string)
    requires dateKey !in ValueKeys
    requires IsMergeOf(daily, results, dateKey)
    ensures daily == MergedDaily(results, dateKey)
  {
    MergeStateKeys(daily, results, dateKey);
    var merged := MergedDaily(results, dateKey);
    assert merged.Keys == daily.Keys;
    forall k | k in daily ensures daily[k] == merged[k] {
      if k != dateKey {
        var m :| 0 <= m < |ValueKeys| && ValueKeys[m] == k;
        assert KeyMerged(daily, results, ValueKeys[m]);
      }
    }
  }

  lemma MergeStateKeys(daily: map<string, seq<Value>>, results: seq<WeatherData>, dateKey: string)
    requires dateKey !in ValueKeys
    requires IsMergeOf(daily, results, dateKey)
    ensures daily.Keys == MergedKeys(results, dateKey)
  {
    forall k | k in daily ensures k in MergedKeys(results, dateKey) {
      if k != dateKey {
        var m :| 0 <= m < |ValueKeys| && ValueKeys[m] == k;
        assert KeyMerged(daily, results, ValueKeys[m]);
      }
    }
    forall k | k in MergedKeys(results, dateKey) ensures k in daily {
      if k != dateKey {
        var m :| 0 <= m < |ValueKeys| && ValueKeys[m] == k;
        assert KeyMerged(daily, results, ValueKeys[m]);
      }
    }
  }

  /**
   * One `if (series.Any())` block: when the chunk supplied values, create
   * the key if it is missing and append them.
   */
  method AppendIfAny(daily: map<string, seq<Value>>, key: string, values: seq<real>)
    returns (merged: map<string, seq<Value>>)
    ensures values == [] ==> merged == daily
    ensures values != [] ==>
      merged == daily[key := (if key in daily then daily[key] else []) + NumberValues(values)]
  {
    merged := daily;
    if values != [] {
      if key !in merged {
        merged := merged[key := []];
      }
      merged := merged[key := merged[key] + NumberValues(values)];
    }
  }

  /**
   * The merge loop: for each chunk in order, append its dates under dateKey
   * and then its value series.
   */
  method MergeDaily(results: seq<WeatherData>, dateKey: string) returns (daily: map<string, seq<Value>>)
    requires dateKey !in ValueKeys
    ensures |results| > 0 ==> daily == MergedDaily(results, dateKey)
    ensures |results| == 0 ==> daily == map[]
  {
    daily := map[];
    for i := 0 to |results|
      invariant i == 0 ==> daily == map[]
      invariant i > 0 ==> IsMergeOf(daily, results[..i], dateKey)
    {
      daily := MergeChunk(daily, results[..i], results[i], dateKey);
      PrefixStep(results, i);
    }
    assert results[..|results|] == results;
    if |results| > 0 {
      MergeIsUnique(daily, results, dateKey);
    }
  }

  /**
   * One turn of the merge loop: the chunk's dates under dateKey, then the
   * seven `if (series.Any())` blocks in the order of ValueKeys.
   */
  method MergeChunk(merged: map<string, seq<Value>>, done: seq<WeatherData>, result: WeatherData, dateKey: string)
    returns (daily: map<string, seq<Value>>)
    requires dateKey !in ValueKeys
    requires done == [] ==> merged == map[]
    requires done != [] ==> IsMergeOf(merged, done, dateKey)
    ensures IsMergeOf(daily, done + [result], dateKey)
  {
    daily := merged;
    if dateKey !in daily {
      daily := daily[dateKey := []];
    }
    daily := daily[dateKey := daily[dateKey] + DateValues(result.daily.time)];
    DatesMerged(merged, daily, done, result, dateKey);
    SeriesOfKeys(result.daily);
    ghost var before := daily;
    daily := AppendIfAny(daily, TemperatureMaxKey, result.daily.temperature2mMax);
    SeriesMerged(before, daily, done, result, dateKey, 0);
    before := daily;
    daily := AppendIfAny(daily, TemperatureMinKey, result.daily.temperature2mMin);
    SeriesMerged(before, daily, done, result, dateKey, 1);
    before := daily;
    daily := AppendIfAny(daily, HumidityKey, result.daily.relativeHumidity2m);
    SeriesMerged(before, daily, done, result, dateKey, 2);
    before := daily;
    daily := AppendIfAny(daily, PrecipitationSumKey, result.daily.precipitationSum);
    SeriesMerged(before, daily, done, result, dateKey, 3);
    before := daily;
    daily := AppendIfAny(daily, PrecipitationHoursKey, result.daily.precipitationHours);
    SeriesMerged(before, daily, done, result, dateKey, 4);
    before := daily;
    daily := AppendIfAny(daily, WindSpeedKey, result.daily.windSpeed);
    SeriesMerged(before, daily, done, result, dateKey, 5);
    before := daily;
    daily := AppendIfAny(daily, RadiationKey, result.daily.shortWaveRadiationSum);
    SeriesMerged(before, daily, done, result, dateKey, 6);
  }

  /**
   * The merge state part way through a turn: the dates and the first j
   * value series include the chunk `result`, the others do not yet.
   */
  ghost predicate MergedUpTo(daily: map<string, seq<Value>>, done: seq<WeatherData>, result: WeatherData,
    dateKey: string, j: nat)
  {
    dateKey in daily && daily[dateKey] == DateValues(ConcatTimes(done + [result])) &&
    (forall k :: k in daily ==> k == dateKey || k in ValueKeys) &&
    (forall m :: 0 <= m < j && m < |ValueKeys| ==> KeyMerged(daily, done + [result], ValueKeys[m])) &&
    (forall m :: j <= m < |ValueKeys| ==> KeyMerged(daily, done, ValueKeys[m]))
  }

  lemma SeriesOfKeys(daily: DailyData)
    ensures ValueKeys[0] == TemperatureMaxKey && SeriesOf(daily, ValueKeys[0]) == daily.temperature2mMax
    ensures ValueKeys[1] == TemperatureMinKey && SeriesOf(daily, ValueKeys[1]) == daily.temperature2mMin
    ensures ValueKeys[2] == HumidityKey && SeriesOf(daily, ValueKeys[2]) == daily.relativeHumidity2m
    ensures ValueKeys[3] == PrecipitationSumKey && SeriesOf(daily, ValueKeys[3]) == daily.precipitationSum
    ensures ValueKeys[4] == PrecipitationHoursKey && SeriesOf(daily, ValueKeys[4]) == daily.precipitationHours
    ensures ValueKeys[5] == WindSpeedKey && SeriesOf(daily, ValueKeys[5]) == daily.windSpeed
    ensures ValueKeys[6] == RadiationKey && SeriesOf(daily, ValueKeys[6]) == daily.shortWaveRadiationSum
  {
    ValueKeysDistinct();
  }

  /** Appending the chunk's dates starts the turn. */
  lemma DatesMerged(merged: map<string, seq<Value>>, daily: map<string, seq<Value>>, done: seq<WeatherData>,
    result: WeatherData, dateKey: string)
    requires dateKey !in ValueKeys
    requires done == [] ==> merged == map[]
    requires done != [] ==> IsMergeOf(merged, done, dateKey)
    requires daily == merged[dateKey := (if dateKey in merged then merged[dateKey] else []) + DateValues(result.daily.time)]
    ensures MergedUpTo(daily, done, result, dateKey, 0)
  {
    ConcatAppend(done, result);
    DateValuesAppend(ConcatTimes(done), result.daily.time);
    forall m | 0 <= m < |ValueKeys| ensures KeyMerged(daily, done, ValueKeys[m]) {
      assert ValueKeys[m] != dateKey;
      if done != [] {
        assert KeyMerged(merged, done, ValueKeys[m]);
      }
    }
  }

  /** The j-th `if (series.Any())` block moves the merge state on by one key. */
  lemma SeriesMerged(before: map<string, seq<Value>>, after: map<string, seq<Value>>, done: seq<WeatherData>,
    result: WeatherData, dateKey: string, j: nat)
    requires dateKey !in ValueKeys && j < |ValueKeys|
    requires MergedUpTo(before, done, result, dateKey, j)
    requires SeriesOf(result.daily, ValueKeys[j]) == [] ==> after == before
    requires SeriesOf(result.daily, ValueKeys[j]) != [] ==> after == before[ValueKeys[j] :=
      (if ValueKeys[j] in before then before[ValueKeys[j]] else []) + NumberValues(SeriesOf(result.daily, ValueKeys[j]))]
    ensures MergedUpTo(after, done, result, dateKey, j + 1)
  {
    ValueKeysDistinct();
    var key := ValueKeys[j];
    AppendKeepsMerged(before, after, done, result, key);
    forall m | 0 <= m < j ensures KeyMerged(after, done + [result], ValueKeys[m]) {
      KeyMergedFrame(before, after, done + [result], ValueKeys[m]);
    }
    forall m | j < m < |ValueKeys| ensures KeyMerged(after, done, ValueKeys[m]) {
      KeyMergedFrame(before, after, done, ValueKeys[m]);
    }
  }
}
