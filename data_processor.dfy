/**
 * The processing steps between the upstream responses and the client:
 * merging the per-chunk responses into one dataset with a daily average
 * temperature, and turning a two-series dataset into chart points clipped to
 * the requested range.
 */
module DataProcessor {
  import opened Wrappers
  import opened Dates
  import opened Models
  import opened DailyMerge

  /** The name the processor gives the merged date series. */
  const DateKey := "Date"

  /** `Cast<double>()` over a merged series: every element must be a number. */
  function CastNumbers(values: seq<Value>): (r: Result<seq<real>>)
    ensures r.Success? <==> forall i :: 0 <= i < |values| ==> values[i].NumberValue?
    ensures r.Success? ==> NumberValues(r.value) == values
  {
    if values == [] then Success([])
    else if !values[0].NumberValue? then Failure(InvalidCast)
    else match CastNumbers(values[1..])
      case Failure(e) => Failure(e)
      case Success(rest) => Success([values[0].number] + rest)
  }

  /**
   * The daily average temperature: for each maximum, its mean with the
   * minimum at the same index. A minimum series shorter than the maximum
   * series makes the index lookup throw.
   */
  function AverageTemperatures(maxTemps: seq<real>, minTemps: seq<real>): (r: Result<seq<real>>)
    ensures r.Success? <==> |maxTemps| <= |minTemps|
    ensures r.Failure? ==> r.error == IndexOutOfRange
    ensures r.Success? ==> |r.value| == |maxTemps|
    ensures r.Success? ==> forall i :: 0 <= i < |maxTemps| ==>
      r.value[i] - minTemps[i] == maxTemps[i] - r.value[i]
  {
    if |minTemps| < |maxTemps| then Failure(IndexOutOfRange)
    else Success(seq(|maxTemps|, i requires 0 <= i < |maxTemps| => (maxTemps[i] + minTemps[i]) / 2.0))
  }

  /** A day's average lies between that day's minimum and maximum. */
  lemma AverageLiesBetween(maxTemps: seq<real>, minTemps: seq<real>, i: nat)
    requires |maxTemps| <= |minTemps| && i < |maxTemps|
    requires minTemps[i] <= maxTemps[i]
    ensures AverageTemperatures(maxTemps, minTemps).Success?
    ensures minTemps[i] <= AverageTemperatures(maxTemps, minTemps).value[i] <= maxTemps[i]
  {
    var avg := AverageTemperatures(maxTemps, minTemps).value;
    assert avg[i] - minTemps[i] == maxTemps[i] - avg[i];
  }

  /**
   * What MergeResults returns or throws: the merged dataset under "Date",
   * the position of the first chunk, no time zone, and, when both
   * temperature series are present, their daily average.
   */
  function MergedResponse(results: seq<WeatherData>): Result<WeatherDataResponse>
  {
    if |results| == 0 then Failure(GeneralError)
    else
      var daily := MergedDaily(results, DateKey);
      if TemperatureMaxKey in daily && TemperatureMinKey in daily then
        match AverageTemperatures(ConcatSeries(results, TemperatureMaxKey), ConcatSeries(results, TemperatureMinKey))
        case Failure(e) => Failure(e)
        case Success(avg) =>
          Success(WeatherDataResponse(results[0].latitude, results[0].longitude, None,
            daily[TemperatureAverageKey := NumberValues(avg)]))
      else
        Success(WeatherDataResponse(results[0].latitude, results[0].longitude, None, daily))
  }

  /** MergeResults: merges the chunk responses in order. */
  method MergeResults(results: seq<WeatherData>) returns (r: Result<WeatherDataResponse>)
    ensures r == MergedResponse(results)
  {
    if |results| == 0 {
      return Failure(GeneralError);
    }
    ValueKeysDistinct();
    var daily := MergeDaily(results, DateKey);
    MergedDailyAt(results, DateKey, TemperatureMaxKey);
    MergedDailyAt(results, DateKey, TemperatureMinKey);
    if TemperatureMaxKey in daily && TemperatureMinKey in daily {
      var maxTemps := CastNumbers(daily[TemperatureMaxKey]);
      var minTemps := CastNumbers(daily[TemperatureMinKey]);
      if maxTemps.Failure? || minTemps.Failure? {
        assert false;
        return Failure(InvalidCast);
      }
      NumberValuesInjective(maxTemps.value, ConcatSeries(results, TemperatureMaxKey));
      NumberValuesInjective(minTemps.value, ConcatSeries(results, TemperatureMinKey));
      var avg := AverageTemperatures(maxTemps.value, minTemps.value);
      if avg.Failure? {
        return Failure(avg.error);
      }
      daily := daily[TemperatureAverageKey := NumberValues(avg.value)];
    }
    return Success(WeatherDataResponse(results[0].latitude, results[0].longitude, None, daily));
  }

  lemma NumberValuesInjective(xs: seq<real>, ys: seq<real>)
    requires NumberValues(xs) == NumberValues(ys)
    ensures xs == ys
  {
    assert |xs| == |ys|;
    forall i | 0 <= i < |xs| ensures xs[i] == ys[i] {
      assert NumberValues(xs)[i] == NumberValues(ys)[i];
    }
  }

  /**
   * MergeResults throws exactly when there is nothing to merge, or when
   * both temperature series are present and fewer minima than maxima
   * were supplied.
   */
  lemma MergeResultsFailsIff(results: seq<WeatherData>)
    ensures MergedResponse(results).Failure? <==>
      (|results| == 0 ||
       (ConcatSeries(results, TemperatureMaxKey) != [] && ConcatSeries(results, TemperatureMinKey) != [] &&
        |ConcatSeries(results, TemperatureMinKey)| < |ConcatSeries(results, TemperatureMaxKey)|))
    ensures |results| == 0 ==> MergedResponse(results) == Failure(GeneralError)
  {
    if |results| > 0 {
      ValueKeysDistinct();
      MergedDailyAt(results, DateKey, TemperatureMaxKey);
      MergedDailyAt(results, DateKey, TemperatureMinKey);
    }
  }

  /**
   * A merged dataset holds the date series, each value series some chunk
   * supplied, and the average exactly when both temperature series are
   * present; the dates are all chunks' dates in chunk order.
   */
  lemma MergedResponseKeys(results: seq<WeatherData>, k: string)
    requires MergedResponse(results).Success?
    ensures var r := MergedResponse(results).value;
      (k in r.daily <==>
        (k == DateKey ||
         (k in ValueKeys && ConcatSeries(results, k) != []) ||
         (k == TemperatureAverageKey && ConcatSeries(results, TemperatureMaxKey) != [] &&
          ConcatSeries(results, TemperatureMinKey) != [])))
    ensures var r := MergedResponse(results).value;
      DateKey in r.daily && r.daily[DateKey] == DateValues(ConcatTimes(results))
    ensures var r := MergedResponse(results).value;
      k in ValueKeys && k in r.daily ==> r.daily[k] == NumberValues(ConcatSeries(results, k))
    ensures var r := MergedResponse(results).value;
      r.latitude == results[0].latitude && r.longitude == results[0].longitude && r.timezone == None
  {
    ValueKeysDistinct();
    MergedDailyAt(results, DateKey, k);
    MergedDailyAt(results, DateKey, DateKey);
    MergedDailyAt(results, DateKey, TemperatureMaxKey);
    MergedDailyAt(results, DateKey, TemperatureMinKey);
    MergedDailyAt(results, DateKey, TemperatureAverageKey);
  }

  /**
   * The average series has one entry per maximum, and each lies between
   * the day's minimum and maximum whenever the minimum is not above the
   * maximum.
   */
  lemma MergedAverage(results: seq<WeatherData>, i: nat)
    requires MergedResponse(results).Success?
    requires TemperatureAverageKey in MergedResponse(results).value.daily
    requires i < |ConcatSeries(results, TemperatureMaxKey)| && i < |ConcatSeries(results, TemperatureMinKey)|
    requires ConcatSeries(results, TemperatureMinKey)[i] <= ConcatSeries(results, TemperatureMaxKey)[i]
    ensures var avg := MergedResponse(results).value.daily[TemperatureAverageKey];
      |avg| == |ConcatSeries(results, TemperatureMaxKey)| &&
      avg[i].NumberValue? &&
      ConcatSeries(results, TemperatureMinKey)[i] <= avg[i].number <= ConcatSeries(results, TemperatureMaxKey)[i]
  {
    var maxTemps := ConcatSeries(results, TemperatureMaxKey);
    var minTemps := ConcatSeries(results, TemperatureMinKey);
    MergedResponseKeys(results, TemperatureAverageKey);
    MergeResultsFailsIff(results);
    assert |maxTemps| <= |minTemps|;
    MergedAverageSeries(results);
    AverageLiesBetween(maxTemps, minTemps, i);
  }

  /** When both temperature series are present and compatible, the merge carries their average. */
  lemma MergedAverageSeries(results: seq<WeatherData>)
    requires |results| > 0
    requires ConcatSeries(results, TemperatureMaxKey) != [] && ConcatSeries(results, TemperatureMinKey) != []
    requires |ConcatSeries(results, TemperatureMaxKey)| <= |ConcatSeries(results, TemperatureMinKey)|
    ensures MergedResponse(results).Success?
    ensures var daily := MergedResponse(results).value.daily;
      DateKey in daily && daily[DateKey] == DateValues(ConcatTimes(results)) &&
      TemperatureAverageKey in daily &&
      daily[TemperatureAverageKey] == NumberValues(AverageTemperatures(
        ConcatSeries(results, TemperatureMaxKey), ConcatSeries(results, TemperatureMinKey)).value)
  {
    ValueKeysDistinct();
    var daily := MergedDaily(results, DateKey);
    MergedDailyAt(results, DateKey, DateKey);
    MergedDailyAt(results, DateKey, TemperatureMaxKey);
    MergedDailyAt(results, DateKey, TemperatureMinKey);
    var avg := AverageTemperatures(ConcatSeries(results, TemperatureMaxKey), ConcatSeries(results, TemperatureMinKey));
    assert avg.Success?;
    assert MergedResponse(results) ==
      Success(WeatherDataResponse(results[0].latitude, results[0].longitude, None,
        daily[TemperatureAverageKey := NumberValues(avg.value)]));
    assert daily[DateKey] == DateValues(ConcatTimes(results));
  }

  /**
   * Two chunks, days 0-1 and day 2, with maxima 10, 12 | 14 and minima
   * 2, 4 | 6, merge into three dates and the averages 6, 8, 10.
   */
  lemma TwoChunksAverage(first: WeatherData, second: WeatherData)
    requires first == WeatherData(52.0, 5.0, "GMT", DailyData([0, 1], [10.0, 12.0], [2.0, 4.0], [], [], [], [], []))
    requires second == WeatherData(53.0, 6.0, "GMT", DailyData([2], [14.0], [6.0], [], [], [], [], []))
    ensures MergedResponse([first, second]).Success?
    ensures MergedResponse([first, second]).value.daily[DateKey] == [DateValue(0), DateValue(1), DateValue(2)]
    ensures MergedResponse([first, second]).value.daily[TemperatureAverageKey] ==
      [NumberValue(6.0), NumberValue(8.0), NumberValue(10.0)]
  {
    TwoChunksConcatenated(first, second);
    MergedAverageSeries([first, second]);
    ThreeDayAverage();
  }

  lemma ThreeDayAverage()
    ensures AverageTemperatures([10.0, 12.0, 14.0], [2.0, 4.0, 6.0]).Success?
    ensures NumberValues(AverageTemperatures([10.0, 12.0, 14.0], [2.0, 4.0, 6.0]).value) ==
      [NumberValue(6.0), NumberValue(8.0), NumberValue(10.0)]
    ensures DateValues([0, 1, 2]) == [DateValue(0), DateValue(1), DateValue(2)]
  {
    var avg := AverageTemperatures([10.0, 12.0, 14.0], [2.0, 4.0, 6.0]).value;
    assert avg == [6.0, 8.0, 10.0];
  }

  lemma TwoChunksConcatenated(first: WeatherData, second: WeatherData)
    requires first == WeatherData(52.0, 5.0, "GMT", DailyData([0, 1], [10.0, 12.0], [2.0, 4.0], [], [], [], [], []))
    requires second == WeatherData(53.0, 6.0, "GMT", DailyData([2], [14.0], [6.0], [], [], [], [], []))
    ensures ConcatSeries([first, second], TemperatureMaxKey) == [10.0, 12.0, 14.0]
    ensures ConcatSeries([first, second], TemperatureMinKey) == [2.0, 4.0, 6.0]
    ensures ConcatTimes([first, second]) == [0, 1, 2]
  {
    var results := [first, second];
    SeriesOfKeys(first.daily);
    SeriesOfKeys(second.daily);
    assert results[..1] == [first];
    assert [first][..0] == [];
    assert ConcatSeries([first], TemperatureMaxKey) == [10.0, 12.0];
    assert ConcatSeries([first], TemperatureMinKey) == [2.0, 4.0];
    assert ConcatTimes([first]) == [0, 1];
  }

  /** Index i of the two series yields a point: its date parses and its value converts. */
  predicate PointAt(dates: seq<Value>, values: seq<Value>, i: nat)
    requires i < |dates|
  {
    dates[i].DateValue? && i < |values| && values[i].NumberValue?
  }

  /**
   * The chart points of a date series and a value series: every index's
   * date is parsed and its value converted, the first index where that
   * fails decides the exception (a date string where a number is expected
   * fails to parse, as a number where a date is expected does), and the
   * points dated within [start, end] are kept in order.
   */
  function ClipPoints(dates: seq<Value>, values: seq<Value>, start: Day, end: Day): (r: Result<seq<ChartDataPoint>>)
    ensures r.Success? <==> forall i :: 0 <= i < |dates| ==> PointAt(dates, values, i)
    ensures r.Failure? ==> r.error == FormatError || r.error == IndexOutOfRange
    ensures r.Success? ==> |r.value| <= |dates|
    ensures r.Success? ==> forall p :: p in r.value ==> start <= p.xaxis <= end
  {
    if dates == [] then Success([])
    else if !dates[0].DateValue? then assert !PointAt(dates, values, 0); Failure(FormatError)
    else if values == [] then assert !PointAt(dates, values, 0); Failure(IndexOutOfRange)
    else if !values[0].NumberValue? then assert !PointAt(dates, values, 0); Failure(FormatError)
    else
      var rest := ClipPoints(dates[1..], values[1..], start, end);
      assert forall i :: 1 <= i < |dates| ==> (PointAt(dates, values, i) <==> PointAt(dates[1..], values[1..], i - 1));
      assert forall i :: 0 <= i < |dates| - 1 ==> (PointAt(dates[1..], values[1..], i) <==> PointAt(dates, values, i + 1));
      if rest.Failure? then rest
      else if start <= dates[0].day <= end then Success([ChartDataPoint(dates[0].day, values[0].number)] + rest.value)
      else rest
  }

  /**
   * Clipping is a filter that keeps the input order: one more aligned pair
   * adds its point at the end when its date is in range, and nothing
   * otherwise, so points are neither re-sorted nor merged.
   */
  lemma {:induction false} ClipPointsSnoc(dates: seq<Value>, values: seq<Value>, start: Day, end: Day, d: Day, v: real)
    requires |values| == |dates|
    requires ClipPoints(dates, values, start, end).Success?
    ensures ClipPoints(dates + [DateValue(d)], values + [NumberValue(v)], start, end) ==
      Success(ClipPoints(dates, values, start, end).value +
              (if start <= d <= end then [ChartDataPoint(d, v)] else []))
  {
    var ds, vs := dates + [DateValue(d)], values + [NumberValue(v)];
    if dates == [] {
      assert ds == [DateValue(d)] && vs == [NumberValue(v)];
      assert ClipPoints(ds[1..], vs[1..], start, end) == Success([]);
      assert ClipPoints(dates, values, start, end) == Success([]);
      if start <= d <= end {
        assert ClipPoints(ds, vs, start, end) == Success([ChartDataPoint(d, v)] + []);
        assert [ChartDataPoint(d, v)] + [] == [] + [ChartDataPoint(d, v)];
      }
    } else {
      assert ds[1..] == dates[1..] + [DateValue(d)];
      assert vs[1..] == values[1..] + [NumberValue(v)];
      assert PointAt(dates, values, 0);
      assert ClipPoints(dates[1..], values[1..], start, end).Success?;
      ClipPointsSnoc(dates[1..], values[1..], start, end, d, v);
      var point := if start <= dates[0].day <= end then [ChartDataPoint(dates[0].day, values[0].number)] else [];
      assert ClipPoints(dates, values, start, end).value == point + ClipPoints(dates[1..], values[1..], start, end).value;
      assert ClipPoints(ds, vs, start, end).value == point + ClipPoints(ds[1..], vs[1..], start, end).value;
      var extra := if start <= d <= end then [ChartDataPoint(d, v)] else [];
      assert point + (ClipPoints(dates[1..], values[1..], start, end).value + extra) ==
        (point + ClipPoints(dates[1..], values[1..], start, end).value) + extra;
    }
  }

  /** A point is charted exactly when some index carries its date, in range, and its value. */
  lemma {:induction false} ClipPointsMembers(dates: seq<Value>, values: seq<Value>, start: Day, end: Day, p: ChartDataPoint)
    requires ClipPoints(dates, values, start, end).Success?
    ensures p in ClipPoints(dates, values, start, end).value <==>
      (start <= p.xaxis <= end &&
       exists i :: 0 <= i < |dates| && i < |values| && dates[i] == DateValue(p.xaxis) && values[i] == NumberValue(p.yaxis))
  {
    if dates != [] {
      ClipPointsMembers(dates[1..], values[1..], start, end, p);
      var here := dates[0] == DateValue(p.xaxis) && values[0] == NumberValue(p.yaxis);
      if exists i :: 0 <= i < |dates| && i < |values| && dates[i] == DateValue(p.xaxis) && values[i] == NumberValue(p.yaxis) {
        var i :| 0 <= i < |dates| && i < |values| && dates[i] == DateValue(p.xaxis) && values[i] == NumberValue(p.yaxis);
        if i > 0 {
          assert dates[1..][i - 1] == dates[i] && values[1..][i - 1] == values[i];
        }
      }
      if exists i :: 0 <= i < |dates[1..]| && i < |values[1..]| && dates[1..][i] == DateValue(p.xaxis) && values[1..][i] == NumberValue(p.yaxis) {
        var i :| 0 <= i < |dates[1..]| && i < |values[1..]| && dates[1..][i] == DateValue(p.xaxis) && values[1..][i] == NumberValue(p.yaxis);
        assert dates[i + 1] == dates[1..][i];
      }
    }
  }

  /** The dates of a series, strictly ascending. */
  predicate Ascending(dates: seq<Value>)
  {
    forall i, j :: 0 <= i < j < |dates| && dates[i].DateValue? && dates[j].DateValue? ==> dates[i].day < dates[j].day
  }

  predicate PointsAscending(points: seq<ChartDataPoint>)
  {
    forall i, j :: 0 <= i < j < |points| ==> points[i].xaxis < points[j].xaxis
  }

  /** Clipping keeps the order of the dates: ascending dates give ascending points. */
  lemma {:induction false} ClipPointsAscending(dates: seq<Value>, values: seq<Value>, start: Day, end: Day)
    requires ClipPoints(dates, values, start, end).Success?
    requires Ascending(dates)
    ensures PointsAscending(ClipPoints(dates, values, start, end).value)
  {
    if dates != [] {
      assert Ascending(dates[1..]) by {
        forall i, j | 0 <= i < j < |dates[1..]| && dates[1..][i].DateValue? && dates[1..][j].DateValue?
          ensures dates[1..][i].day < dates[1..][j].day
        {
          assert dates[1..][i] == dates[i + 1] && dates[1..][j] == dates[j + 1];
        }
      }
      ClipPointsAscending(dates[1..], values[1..], start, end);
      var rest := ClipPoints(dates[1..], values[1..], start, end).value;
      forall q | q in rest ensures dates[0].day < q.xaxis {
        ClipPointsMembers(dates[1..], values[1..], start, end, q);
        var i :| 0 <= i < |dates[1..]| && i < |values[1..]| && dates[1..][i] == DateValue(q.xaxis) && values[1..][i] == NumberValue(q.yaxis);
        assert dates[i + 1] == dates[1..][i];
      }
    }
  }

  /** The one key of a two-key dataset that is not the date series. */
  function ValueKey(result: map<string, seq<Value>>): (k: string)
    requires DateKey in result && |result| == 2
    ensures k in result && k != DateKey
    ensures forall k' :: k' in result ==> k' == DateKey || k' == k
  {
    OneValueKey(result);
    var k :| k in result && k != DateKey; k
  }

  lemma OneValueKey(result: map<string, seq<Value>>)
    requires DateKey in result && |result| == 2
    ensures exists k :: k in result && k != DateKey
    ensures forall a, b :: a in result && a != DateKey && b in result && b != DateKey ==> a == b
  {
    var others := result.Keys - {DateKey};
    assert result.Keys == others + {DateKey};
    assert |others| == 1;
    var k :| k in others;
    assert |others - {k}| == 0;
  }

  /**
   * FormatWeatherData: a dataset of exactly the date series and one value
   * series becomes a chart of the points within the request's range, titled
   * "Date" against the value series' name.
   */
  function FormatWeatherData(result: map<string, seq<Value>>, request: WeatherDataRequest): (r: Result<WeatherDataGraphResponse>)
    ensures !(DateKey in result && |result| == 2) ==> r == Failure(ArgumentError)
    ensures r.Success? ==>
      DateKey in result && |result| == 2 &&
      r.value.xAxisTitle == DateKey && r.value.yAxisTitle in result && r.value.yAxisTitle != DateKey &&
      r.value.daily.Keys == {"data"} && r.value.daily["data"] != [] &&
      (forall p :: p in r.value.daily["data"] ==> request.startDate <= p.xaxis <= request.endDate)
    ensures r.Success? ==>
      ClipPoints(result[DateKey], result[r.value.yAxisTitle], request.startDate, request.endDate) ==
        Success(r.value.daily["data"])
  {
    if !(DateKey in result && |result| == 2) then Failure(ArgumentError)
    else
      var valueKey := ValueKey(result);
      match ClipPoints(result[DateKey], result[valueKey], request.startDate, request.endDate)
      case Failure(e) => Failure(e)
      case Success(points) =>
        if points == [] then Failure(InvalidOperation)
        else Success(WeatherDataGraphResponse(0.0, 0.0, DateKey, valueKey, map["data" := points]))
  }

  /**
   * FormatWeatherData succeeds exactly when the dataset has the right
   * shape, every index parses and converts, and some date lies in range;
   * a well-formed dataset with nothing in range throws InvalidOperation.
   */
  lemma FormatWeatherDataSucceedsIff(result: map<string, seq<Value>>, request: WeatherDataRequest)
    requires DateKey in result && |result| == 2
    ensures var dates := result[DateKey];
      var values := result[ValueKey(result)];
      var r := FormatWeatherData(result, request);
      (r.Success? <==>
        ((forall i :: 0 <= i < |dates| ==> PointAt(dates, values, i)) &&
         exists i :: 0 <= i < |dates| && dates[i].DateValue? && request.startDate <= dates[i].day <= request.endDate)) &&
      ((forall i :: 0 <= i < |dates| ==> PointAt(dates, values, i)) && r.Failure? ==> r.error == InvalidOperation)
  {
    var dates := result[DateKey];
    var values := result[ValueKey(result)];
    var clipped := ClipPoints(dates, values, request.startDate, request.endDate);
    if clipped.Success? {
      if exists i :: 0 <= i < |dates| && dates[i].DateValue? && request.startDate <= dates[i].day <= request.endDate {
        var i :| 0 <= i < |dates| && dates[i].DateValue? && request.startDate <= dates[i].day <= request.endDate;
        assert PointAt(dates, values, i);
        ClipPointsMembers(dates, values, request.startDate, request.endDate, ChartDataPoint(dates[i].day, values[i].number));
      }
      if clipped.value != [] {
        var p := clipped.value[0];
        ClipPointsMembers(dates, values, request.startDate, request.endDate, p);
      }
    }
  }
}
