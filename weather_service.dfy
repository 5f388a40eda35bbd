/**
 * The acquisition pipeline of the weather service: translate the requested
 * parameters, split the range into chunks, fetch every chunk, merge the
 * responses in chunk order and persist the new days before answering.
 */
module WeatherService {
  import opened Wrappers
  import opened Dates
  import opened Models
  import opened Store
  import opened DailyMerge
  import opened Persistence
  import opened TimeRangeTools
  import TimeRangeSplitter
  import ParameterMappings

  /** The name the service gives the merged date series. */
  const TimeKey := "time"

  /** `GetValueOrDefault(p, p)`: a known key becomes its upstream names, anything else passes through. */
  function ApiParameter(p: string): string {
    if p in ParameterMappings.RequestDataMapping then ParameterMappings.RequestDataMapping[p] else p
  }

  /** The upstream parameter list of a request: one entry per requested key, in request order. */
  function ApiParameters(parameters: seq<string>): (names: seq<string>)
    ensures |names| == |parameters|
    ensures forall i :: 0 <= i < |parameters| && parameters[i] !in ParameterMappings.RequestDataMapping ==>
      names[i] == parameters[i]
    ensures forall i :: 0 <= i < |parameters| && parameters[i] in ParameterMappings.RequestDataMapping ==>
      names[i] == ParameterMappings.RequestDataMapping[parameters[i]]
  {
    seq(|parameters|, i requires 0 <= i < |parameters| => ApiParameter(parameters[i]))
  }

  /** The translation works element by element, so it keeps the order of the request. */
  lemma ApiParametersAppend(a: seq<string>, b: seq<string>)
    ensures ApiParameters(a + b) == ApiParameters(a) + ApiParameters(b)
  {
  }

  /** A request for temperature and rain asks upstream for both temperature series, then rain. */
  lemma TemperatureAndRainParameters()
    ensures ApiParameters(["temperature", "precipitation_sum", "snow"]) ==
      ["temperature_2m_max,temperature_2m_min", "precipitation_sum", "snow"]
  {
    assert ApiParameter("temperature") == "temperature_2m_max,temperature_2m_min";
    assert ApiParameter("precipitation_sum") == "precipitation_sum";
    assert "snow" !in ParameterMappings.RequestDataMapping.Keys;
  }

  /** What one upstream call asks for: a position, an inclusive day range and the parameter names. */
  datatype FetchRequest = FetchRequest(latitude: real, longitude: real, startDate: Day, endDate: Day, parameters: seq<string>)

  /** One upstream call per chunk, in chunk order. */
  function ChunkRequests(chunks: seq<Chunk>, latitude: real, longitude: real, parameters: seq<string>)
    : (requests: seq<FetchRequest>)
    ensures |requests| == |chunks|
    ensures forall i :: 0 <= i < |chunks| ==>
      requests[i] == FetchRequest(latitude, longitude, chunks[i].start, chunks[i].end, parameters)
  {
    seq(|chunks|, i requires 0 <= i < |chunks| => FetchRequest(latitude, longitude, chunks[i].start, chunks[i].end, parameters))
  }

  /**
   * `Task.WhenAll` over the chunk fetches: the responses in request order,
   * or the failure of the first failing request in that order.
   */
  function FetchAll(fetch: FetchRequest -> Result<WeatherData>, requests: seq<FetchRequest>): (r: Result<seq<WeatherData>>)
    ensures r.Success? <==> forall i :: 0 <= i < |requests| ==> fetch(requests[i]).Success?
    ensures r.Success? ==> |r.value| == |requests|
    ensures r.Success? ==> forall i :: 0 <= i < |requests| ==> r.value[i] == fetch(requests[i]).value
    ensures r.Failure? ==> exists k :: (0 <= k < |requests| && fetch(requests[k]) == Failure(r.error) &&
      forall i :: 0 <= i < k ==> fetch(requests[i]).Success?)
  {
    if requests == [] then Success([])
    else match fetch(requests[0])
      case Failure(e) => Failure(e)
      case Success(first) =>
        var rest := FetchAll(fetch, requests[1..]);
        assert rest.Failure? ==> exists k :: (1 <= k < |requests| && fetch(requests[k]) == Failure(rest.error) &&
          forall i :: 1 <= i < k ==> fetch(requests[i]).Success?);
        if rest.Failure? then rest else Success([first] + rest.value)
  }

  /**
   * What MergeWeatherDataResults returns or throws: the merged dataset under
   * "time", with the position and time zone of the first chunk.
   */
  function ServiceMerged(results: seq<WeatherData>): Result<WeatherDataResponse> {
    if |results| == 0 then Failure(GeneralError)
    else Success(WeatherDataResponse(results[0].latitude, results[0].longitude, Some(results[0].timezone),
      MergedDaily(results, TimeKey)))
  }

  /** MergeWeatherDataResults: the merge loop with "time" as the date series. */
  method MergeWeatherDataResults(results: seq<WeatherData>) returns (r: Result<WeatherDataResponse>)
    ensures r == ServiceMerged(results)
  {
    if |results| == 0 {
      return Failure(GeneralError);
    }
    ValueKeysDistinct();
    var daily := MergeDaily(results, TimeKey);
    return Success(WeatherDataResponse(results[0].latitude, results[0].longitude, Some(results[0].timezone), daily));
  }

  /**
   * The service's merge holds "time" and each value series some chunk
   * supplied, and nothing else: it never derives an average temperature.
   */
  lemma ServiceMergedKeys(results: seq<WeatherData>, k: string)
    requires |results| > 0
    ensures var daily := ServiceMerged(results).value.daily;
      (k in daily <==> k == TimeKey || (k in ValueKeys && ConcatSeries(results, k) != [])) &&
      TemperatureAverageKey !in daily &&
      daily[TimeKey] == DateValues(ConcatTimes(results))
    ensures ServiceMerged(results).value.timezone == Some(results[0].timezone)
  {
    ValueKeysDistinct();
    MergedDailyAt(results, TimeKey, k);
    MergedDailyAt(results, TimeKey, TimeKey);
    MergedDailyAt(results, TimeKey, TemperatureAverageKey);
  }

  /** `Cast<string>()` over the merged dates: every element must be a date. */
  function TimeDays(values: seq<Value>): (r: Result<seq<Day>>)
    ensures r.Success? <==> forall i :: 0 <= i < |values| ==> values[i].DateValue?
    ensures r.Failure? ==> r.error == InvalidCast
    ensures r.Success? ==> DateValues(r.value) == values
  {
    if values == [] then Success([])
    else if !values[0].DateValue? then Failure(InvalidCast)
    else match TimeDays(values[1..])
      case Failure(e) => Failure(e)
      case Success(rest) => Success([values[0].day] + rest)
  }

  /** The bulk inserts in the order the service calls them, each with the key that triggers it. */
  const Dispatch: seq<(string, Table)> := [(TemperatureMaxKey, Temperature), (PrecipitationSumKey, Precipitation),
    (WindSpeedKey, Wind), (RadiationKey, Radiation), (PrecipitationHoursKey, PrecipitationHours)]

  /** The values the bulk insert for a table reads. */
  function ReadingsFor(table: Table, key: string, daily: map<string, seq<Value>>): Result<seq<Option<Reading>>> {
    if table == Temperature then TemperatureReadings(daily) else AmountReadings(daily, key)
  }

  /**
   * The tables after the bulk inserts of Dispatch from the k-th on whose
   * key is present, run in order until one throws.
   */
  function Persisted(tables: map<Table, seq<Row>>, daily: map<string, seq<Value>>, timeList: seq<Day>,
    locationId: nat, k: nat): (Outcome, map<Table, seq<Row>>)
    decreases |Dispatch| - k
  {
    if k >= |Dispatch| then (Pass, tables)
    else
      var key := Dispatch[k].0;
      var table := Dispatch[k].1;
      if key !in daily then Persisted(tables, daily, timeList, locationId, k + 1)
      else
        var (outcome, after) := BulkEffect(tables, table, ReadingsFor(table, key, daily), timeList, locationId);
        if outcome.Fail? then (outcome, after)
        else Persisted(after, daily, timeList, locationId, k + 1)
  }

  /** One step of Persisted: the k-th insert is skipped, throws, or hands its tables on. */
  lemma PersistedStep(tables: map<Table, seq<Row>>, daily: map<string, seq<Value>>, timeList: seq<Day>,
    locationId: nat, k: nat)
    requires k < |Dispatch|
    ensures Dispatch[k].0 !in daily ==>
      Persisted(tables, daily, timeList, locationId, k) == Persisted(tables, daily, timeList, locationId, k + 1)
    ensures Dispatch[k].0 in daily ==>
      var (outcome, after) := BulkEffect(tables, Dispatch[k].1, ReadingsFor(Dispatch[k].1, Dispatch[k].0, daily),
        timeList, locationId);
      Persisted(tables, daily, timeList, locationId, k) ==
        if outcome.Fail? then (outcome, after) else Persisted(after, daily, timeList, locationId, k + 1)
  {
  }

  /**
   * What SaveWeatherDataToDB does to the store: resolve or create the
   * location from the city's coordinates, then, when the dataset has dates,
   * run the triggered bulk inserts.
   */
  function SaveEffect(locations: seq<Location>, tables: map<Table, seq<Row>>, cityMapping: map<string, (real, real)>,
    weatherData: WeatherDataResponse, request: WeatherDataRequest): (Outcome, seq<Location>, map<Table, seq<Row>>)
  {
    if request.location !in cityMapping then (Fail(KeyNotFound), locations, tables)
    else
      var (latitude, longitude) := cityMapping[request.location];
      var (after, location) := LocationFor(locations, request.location, latitude, longitude);
      var daily := weatherData.daily;
      if TimeKey !in daily then (Pass, after, tables)
      else match TimeDays(daily[TimeKey])
        case Failure(e) => (Fail(e), after, tables)
        case Success(timeList) =>
          var (outcome, stored) := Persisted(tables, daily, timeList, location.id, 0);
          (outcome, after, stored)
  }

  /**
   * A dataset none of whose keys triggers an insert stores nothing: the
   * humidity series or the minimum temperature alone are never persisted.
   */
  lemma UntriggeredKeysStoreNothing(tables: map<Table, seq<Row>>, daily: map<string, seq<Value>>, timeList: seq<Day>,
    locationId: nat)
    requires forall k :: k in daily ==> k == TimeKey || k == HumidityKey || k == TemperatureMinKey
    ensures Persisted(tables, daily, timeList, locationId, 0) == (Pass, tables)
  {
    ValueKeysDistinct();
    assert TimeKey != TemperatureMaxKey && TimeKey != PrecipitationSumKey && TimeKey != WindSpeedKey &&
      TimeKey != RadiationKey && TimeKey != PrecipitationHoursKey;
  }

  /**
   * A service-merged dataset with a maximum temperature series fails at
   * the first insert, because that merge has no average series: nothing
   * is stored and the request throws KeyNotFound.
   */
  lemma MergedTemperatureIsNeverStored(tables: map<Table, seq<Row>>, results: seq<WeatherData>, timeList: seq<Day>,
    locationId: nat)
    requires |results| > 0
    requires ConcatSeries(results, TemperatureMaxKey) != []
    ensures Persisted(tables, ServiceMerged(results).value.daily, timeList, locationId, 0) == (Fail(KeyNotFound), tables)
  {
    var daily := ServiceMerged(results).value.daily;
    ServiceMergedKeys(results, TemperatureMaxKey);
    ServiceMergedKeys(results, TemperatureMinKey);
    assert TemperatureMaxKey in daily;
    assert SeriesNumbers(daily, TemperatureAverageKey) == Failure(KeyNotFound);
    assert SeriesNumbers(daily, TemperatureMaxKey).Success? by {
      ValueKeysDistinct();
      assert daily[TemperatureMaxKey] == NumberValues(ConcatSeries(results, TemperatureMaxKey));
    }
    if TemperatureMinKey in daily {
      assert SeriesNumbers(daily, TemperatureMinKey).Success? by {
        ValueKeysDistinct();
        assert daily[TemperatureMinKey] == NumberValues(ConcatSeries(results, TemperatureMinKey));
      }
    }
    assert TemperatureReadings(daily) == Failure(KeyNotFound);
  }

  /**
   * The request up to the merge: translate the parameters, split the
   * range, look up the city, fetch every chunk and merge in chunk order.
   */
  function FetchedAndMerged(request: WeatherDataRequest, today: Day, cityMapping: map<string, (real, real)>,
    fetch: FetchRequest -> Result<WeatherData>): Result<WeatherDataResponse>
  {
    var apiParameters := ApiParameters(request.parameters);
    var chunks := RangeChunks(request.startDate, request.endDate, today);
    if request.location !in cityMapping then Failure(KeyNotFound)
    else
      var (latitude, longitude) := cityMapping[request.location];
      match FetchAll(fetch, ChunkRequests(chunks, latitude, longitude, apiParameters))
      case Failure(e) => Failure(e)
      case Success(results) => ServiceMerged(results)
  }

  /** An unknown city fails before any upstream call. */
  lemma UnknownCityFails(request: WeatherDataRequest, today: Day, cityMapping: map<string, (real, real)>,
    fetch: FetchRequest -> Result<WeatherData>)
    requires request.location !in cityMapping
    ensures FetchedAndMerged(request, today, cityMapping, fetch) == Failure(KeyNotFound)
  {
  }

  /**
   * A request whose widened range is empty (a single 1 January, say) has no
   * chunk to fetch, and the merge of no responses throws.
   */
  lemma EmptyRangeFails(request: WeatherDataRequest, today: Day, cityMapping: map<string, (real, real)>,
    fetch: FetchRequest -> Result<WeatherData>)
    requires request.location in cityMapping
    requires ClampedEnd(request.endDate, today) <= NormalisedStart(request.startDate)
    ensures FetchedAndMerged(request, today, cityMapping, fetch) == Failure(GeneralError)
  {
    ChunksFromEmpty(NormalisedStart(request.startDate), ClampedEnd(request.endDate, today));
  }

  /**
   * When every chunk is fetched, the results are in request order, and the
   * merged dates are the chunks' dates in that order.
   */
  lemma MergedInChunkOrder(request: WeatherDataRequest, today: Day, cityMapping: map<string, (real, real)>,
    fetch: FetchRequest -> Result<WeatherData>)
    requires request.location in cityMapping
    requires FetchedAndMerged(request, today, cityMapping, fetch).Success?
    ensures var (latitude, longitude) := cityMapping[request.location];
      var requests := ChunkRequests(RangeChunks(request.startDate, request.endDate, today), latitude, longitude,
        ApiParameters(request.parameters));
      var results := FetchAll(fetch, requests).value;
      FetchAll(fetch, requests).Success? &&
      (forall i :: 0 <= i < |requests| ==> results[i] == fetch(requests[i]).value) &&
      FetchedAndMerged(request, today, cityMapping, fetch).value.daily[TimeKey] == DateValues(ConcatTimes(results))
  {
    var (latitude, longitude) := cityMapping[request.location];
    var requests := ChunkRequests(RangeChunks(request.startDate, request.endDate, today), latitude, longitude,
      ApiParameters(request.parameters));
    var results := FetchAll(fetch, requests).value;
    ServiceMergedKeys(results, TimeKey);
  }

  /**
   * The service: every operation uses the one store, which its handler
   * shares, and the fixed table of city coordinates.
   */
  class WeatherService {
    const context: WeatherContext
    const dbHandler: DBHandler
    const cityMapping: map<string, (real, real)>

    ghost predicate Valid()
      reads this, context
    {
      dbHandler.context == context && context.Valid()
    }

    constructor (context: WeatherContext, dbHandler: DBHandler, cityMapping: map<string, (real, real)>)
      requires dbHandler.context == context
      ensures this.context == context && this.dbHandler == dbHandler && this.cityMapping == cityMapping
    {
      this.context := context;
      this.dbHandler := dbHandler;
      this.cityMapping := cityMapping;
    }

    /**
     * SaveWeatherDataToDB: resolve the location, then call each bulk insert
     * whose key the dataset holds, stopping at the first that throws.
     */
    method SaveWeatherDataToDB(weatherData: WeatherDataResponse, request: WeatherDataRequest) returns (outcome: Outcome)
      requires Valid()
      modifies context
      ensures Valid()
      ensures (outcome, context.locations, context.tables) ==
        SaveEffect(old(context.locations), old(context.tables), cityMapping, weatherData, request)
    {
      if request.location !in cityMapping {
        return Fail(KeyNotFound);
      }
      var coords := cityMapping[request.location];
      var location := dbHandler.GetOrCreateLocation(request.location, coords.0, coords.1);
      var handler := new DBHandler(context);
      var daily := weatherData.daily;
      if TimeKey !in daily {
        return Pass;
      }
      var timeCast := TimeDays(daily[TimeKey]);
      if timeCast.Failure? {
        return Fail(timeCast.error);
      }
      var timeList := timeCast.value;
      outcome := StoreSeries(handler, weatherData, timeList, location);
    }

    /**
     * The five guarded bulk inserts of SaveWeatherDataToDB, in the order
     * of Dispatch, stopping at the first that throws.
     */
    method StoreSeries(handler: DBHandler, weatherData: WeatherDataResponse, timeList: seq<Day>, location: Location)
      returns (outcome: Outcome)
      requires handler.context == context
      modifies context
      ensures context.locations == old(context.locations)
      ensures (outcome, context.tables) == Persisted(old(context.tables), weatherData.daily, timeList, location.id, 0)
    {
      outcome := GuardedInsert(handler, weatherData, timeList, location, 0);
      if outcome.Fail? {
        return;
      }
      outcome := GuardedInsert(handler, weatherData, timeList, location, 1);
      if outcome.Fail? {
        return;
      }
      outcome := GuardedInsert(handler, weatherData, timeList, location, 2);
      if outcome.Fail? {
        return;
      }
      outcome := GuardedInsert(handler, weatherData, timeList, location, 3);
      if outcome.Fail? {
        return;
      }
      outcome := GuardedInsert(handler, weatherData, timeList, location, 4);
    }

    /**
     * One guarded call of SaveWeatherDataToDB: when the dataset holds the
     * k-th key of Dispatch, the bulk insert for its table; otherwise nothing.
     */
    method GuardedInsert(handler: DBHandler, weatherData: WeatherDataResponse, timeList: seq<Day>, location: Location,
      k: nat) returns (outcome: Outcome)
      requires handler.context == context
      requires k < |Dispatch|
      modifies context
      ensures context.locations == old(context.locations)
      ensures Dispatch[k].0 !in weatherData.daily ==> outcome == Pass && context.tables == old(context.tables)
      ensures Dispatch[k].0 in weatherData.daily ==>
        (outcome, context.tables) == BulkEffect(old(context.tables), Dispatch[k].1,
          ReadingsFor(Dispatch[k].1, Dispatch[k].0, weatherData.daily), timeList, location.id)
      ensures Persisted(old(context.tables), weatherData.daily, timeList, location.id, k) ==
        if outcome.Fail? then (outcome, context.tables)
        else Persisted(context.tables, weatherData.daily, timeList, location.id, k + 1)
    {
      PersistedStep(context.tables, weatherData.daily, timeList, location.id, k);
      outcome := Pass;
      if Dispatch[k].0 in weatherData.daily {
        if k == 0 {
          outcome := handler.AddTemperatureBulk(weatherData, timeList, location);
        } else if k == 1 {
          outcome := handler.AddPrecipitationSumBulk(weatherData, timeList, location);
        } else if k == 2 {
          outcome := handler.AddWindBulk(weatherData, timeList, location);
        } else if k == 3 {
          outcome := handler.AddRadiationBulk(weatherData, timeList, location);
        } else {
          outcome := handler.AddPrecipitationHoursBulk(weatherData, timeList, location);
        }
      }
    }

    /**
     * GetProcessedWeatherDataAsync: fetch and merge the request's chunks,
     * persist the merged dataset, and return it; any exception on the way
     * reaches the caller.
     */
    method GetProcessedWeatherData(request: WeatherDataRequest, today: Day, fetch: FetchRequest -> Result<WeatherData>)
      returns (r: Result<WeatherDataResponse>)
      requires Valid()
      modifies context
      ensures Valid()
      ensures var merged := FetchedAndMerged(request, today, cityMapping, fetch);
        merged.Failure? ==>
          r == Failure(merged.error) && context.locations == old(context.locations) && context.tables == old(context.tables)
      ensures var merged := FetchedAndMerged(request, today, cityMapping, fetch);
        merged.Success? ==>
          var (outcome, locations, tables) :=
            SaveEffect(old(context.locations), old(context.tables), cityMapping, merged.value, request);
          context.locations == locations && context.tables == tables &&
          r == if outcome.Pass? then Success(merged.value) else Failure(outcome.error)
    {
      var apiParameters := ApiParameters(request.parameters);
      var timeChunks := TimeRangeSplitter.SplitTimeRange(request.startDate, request.endDate, today);
      if request.location !in cityMapping {
        return Failure(KeyNotFound);
      }
      var coords := cityMapping[request.location];
      var results := FetchAll(fetch, ChunkRequests(timeChunks, coords.0, coords.1, apiParameters));
      if results.Failure? {
        return Failure(results.error);
      }
      var mergedData := MergeWeatherDataResults(results.value);
      if mergedData.Failure? {
        return mergedData;
      }
      var outcome := SaveWeatherDataToDB(mergedData.value, request);
      if outcome.Fail? {
        return Failure(outcome.error);
      }
      return mergedData;
    }
  }
}
