/**
 * The persister: location lookup and creation, the five bulk inserts that
 * add a merged dataset's new days to the observation tables, and the
 * dynamic range query over one table.
 */
module Persistence {
  import opened Wrappers
  import opened Dates
  import opened Models
  import opened Store
  import opened DailyMerge
  import opened DataProcessor
  import ParameterMappings

  /**
   * The rows the insert loop collects from the first n indices: index i
   * reads timeList[i], skips a date already stored for the location, and
   * otherwise reads the row's values (None: that read is out of range).
   * The stored dates are read once, before the loop, so the loop does not
   * see its own rows.
   */
  function NewRows(existing: set<Day>, timeList: seq<Day>, readings: seq<Option<Reading>>, locationId: nat, n: nat)
    : Result<seq<Row>>
    requires n <= |readings|
  {
    if n == 0 then Success([])
    else match NewRows(existing, timeList, readings, locationId, n - 1)
      case Failure(e) => Failure(e)
      case Success(rows) =>
        if n - 1 >= |timeList| then Failure(IndexOutOfRange)
        else if timeList[n - 1] in existing then Success(rows)
        else if readings[n - 1].None? then Failure(IndexOutOfRange)
        else Success(rows + [Row(locationId, timeList[n - 1], readings[n - 1].value)])
  }

  /** Index i of the loop goes through: its date exists, and it is skipped or its values can be read. */
  predicate Insertable(existing: set<Day>, timeList: seq<Day>, readings: seq<Option<Reading>>, i: nat)
    requires i < |readings|
  {
    i < |timeList| && (timeList[i] in existing || readings[i].Some?)
  }

  /** Once the loop has thrown, it stays thrown. */
  lemma {:induction false} NewRowsFailureSticks(existing: set<Day>, timeList: seq<Day>, readings: seq<Option<Reading>>,
    locationId: nat, k: nat, n: nat)
    requires k <= n <= |readings|
    requires NewRows(existing, timeList, readings, locationId, k).Failure?
    ensures NewRows(existing, timeList, readings, locationId, n) == NewRows(existing, timeList, readings, locationId, k)
    decreases n
  {
    if n > k {
      NewRowsFailureSticks(existing, timeList, readings, locationId, k, n - 1);
    }
  }

  /** The shared insert loop of the five bulk inserts. */
  method CollectNewRows(existing: set<Day>, timeList: seq<Day>, readings: seq<Option<Reading>>, locationId: nat)
    returns (r: Result<seq<Row>>)
    ensures r == NewRows(existing, timeList, readings, locationId, |readings|)
  {
    var rows := [];
    for i := 0 to |readings|
      invariant NewRows(existing, timeList, readings, locationId, i) == Success(rows)
    {
      if i >= |timeList| {
        NewRowsFailureSticks(existing, timeList, readings, locationId, i + 1, |readings|);
        return Failure(IndexOutOfRange);
      }
      var date := timeList[i];
      if date in existing {
        continue;
      }
      if readings[i].None? {
        NewRowsFailureSticks(existing, timeList, readings, locationId, i + 1, |readings|);
        return Failure(IndexOutOfRange);
      }
      rows := rows + [Row(locationId, date, readings[i].value)];
    }
    return Success(rows);
  }

  /** The loop completes exactly when every index goes through. */
  lemma {:induction false} NewRowsSucceedsIff(existing: set<Day>, timeList: seq<Day>, readings: seq<Option<Reading>>,
    locationId: nat, n: nat)
    requires n <= |readings|
    ensures NewRows(existing, timeList, readings, locationId, n).Success? <==>
      forall i :: 0 <= i < n ==> Insertable(existing, timeList, readings, i)
    ensures NewRows(existing, timeList, readings, locationId, n).Failure? ==>
      NewRows(existing, timeList, readings, locationId, n).error == IndexOutOfRange
  {
    if n > 0 {
      NewRowsSucceedsIff(existing, timeList, readings, locationId, n - 1);
      if NewRows(existing, timeList, readings, locationId, n).Success? {
        assert Insertable(existing, timeList, readings, n - 1);
      } else if NewRows(existing, timeList, readings, locationId, n - 1).Success? {
        assert !Insertable(existing, timeList, readings, n - 1);
      }
    }
  }

  /**
   * Every collected row belongs to the location, carries a date that was
   * not stored yet, and the date and values of some index.
   */
  lemma {:induction false} NewRowsSound(existing: set<Day>, timeList: seq<Day>, readings: seq<Option<Reading>>,
    locationId: nat, n: nat)
    requires n <= |readings|
    requires NewRows(existing, timeList, readings, locationId, n).Success?
    ensures forall row :: row in NewRows(existing, timeList, readings, locationId, n).value ==>
      (row.locationId == locationId && row.date !in existing &&
       exists i :: 0 <= i < n && i < |timeList| && timeList[i] == row.date && readings[i] == Some(row.reading))
  {
    if n > 0 {
      NewRowsSound(existing, timeList, readings, locationId, n - 1);
    }
  }

  /** Every index whose date is not stored yet contributes its row. */
  lemma {:induction false} NewRowsComplete(existing: set<Day>, timeList: seq<Day>, readings: seq<Option<Reading>>,
    locationId: nat, n: nat)
    requires n <= |readings|
    requires NewRows(existing, timeList, readings, locationId, n).Success?
    ensures forall i :: 0 <= i < n && i < |timeList| && timeList[i] !in existing ==>
      readings[i].Some? && Row(locationId, timeList[i], readings[i].value) in NewRows(existing, timeList, readings, locationId, n).value
  {
    if n > 0 {
      NewRowsComplete(existing, timeList, readings, locationId, n - 1);
    }
  }

  /** The dates of a batch of rows. */
  function RowDates(rows: seq<Row>): set<Day> {
    set i | 0 <= i < |rows| :: rows[i].date
  }

  /** Running the loop again over dates that now include its own rows collects nothing. */
  lemma {:induction false} NewRowsAgainIsEmpty(existing: set<Day>, timeList: seq<Day>, readings: seq<Option<Reading>>,
    locationId: nat, n: nat)
    requires n <= |readings|
    requires NewRows(existing, timeList, readings, locationId, n).Success?
    ensures NewRows(existing + RowDates(NewRows(existing, timeList, readings, locationId, n).value),
      timeList, readings, locationId, n) == Success([])
  {
    var rows := NewRows(existing, timeList, readings, locationId, n).value;
    var stored := existing + RowDates(rows);
    NewRowsComplete(existing, timeList, readings, locationId, n);
    NewRowsSucceedsIff(existing, timeList, readings, locationId, n);
    if n > 0 {
      assert Insertable(existing, timeList, readings, n - 1);
    }
    forall i | 0 <= i < n ensures timeList[i] in stored {
      assert Insertable(existing, timeList, readings, i);
      if timeList[i] !in existing {
        var row := Row(locationId, timeList[i], readings[i].value);
        var k :| 0 <= k < |rows| && rows[k] == row;
        assert rows[k].date in RowDates(rows);
      }
    }
    AllStoredIsEmpty(stored, timeList, readings, locationId, n);
  }

  lemma {:induction false} AllStoredIsEmpty(stored: set<Day>, timeList: seq<Day>, readings: seq<Option<Reading>>,
    locationId: nat, n: nat)
    requires n <= |readings|
    requires n <= |timeList|
    requires forall i :: 0 <= i < n ==> timeList[i] in stored
    ensures NewRows(stored, timeList, readings, locationId, n) == Success([])
  {
    if n > 0 {
      AllStoredIsEmpty(stored, timeList, readings, locationId, n - 1);
    }
  }

  /**
   * A batch that names the same new date twice inserts two rows for it:
   * the loop checks only the dates stored before it started.
   */
  lemma RepeatedDateInsertedTwice(a: Reading, b: Reading)
    ensures NewRows({}, [5, 5], [Some(a), Some(b)], 1, 2) == Success([Row(1, 5, a), Row(1, 5, b)])
  {
    assert [] + [Row(1, 5, a)] == [Row(1, 5, a)];
    assert NewRows({}, [5, 5], [Some(a), Some(b)], 1, 1) == Success([Row(1, 5, a)]);
    assert [Row(1, 5, a)] + [Row(1, 5, b)] == [Row(1, 5, a), Row(1, 5, b)];
  }

  /** A series under a key, cast to numbers: a missing key or a non-number throws. */
  function SeriesNumbers(daily: map<string, seq<Value>>, key: string): (r: Result<seq<real>>)
    ensures key !in daily ==> r == Failure(KeyNotFound)
    ensures key in daily ==> (r.Success? <==> forall i :: 0 <= i < |daily[key]| ==> daily[key][i].NumberValue?)
    ensures r.Success? ==> key in daily && NumberValues(r.value) == daily[key]
  {
    if key !in daily then Failure(KeyNotFound) else CastNumbers(daily[key])
  }

  /**
   * The values AddTemperatureBulk reads: maximum, minimum and average
   * series in that order; one reading per maximum, whose values are out of
   * range when the minimum or average series is shorter.
   */
  function TemperatureReadings(daily: map<string, seq<Value>>): (r: Result<seq<Option<Reading>>>)
    ensures r.Success? <==>
      SeriesNumbers(daily, TemperatureMaxKey).Success? && SeriesNumbers(daily, TemperatureMinKey).Success? &&
      SeriesNumbers(daily, TemperatureAverageKey).Success?
    ensures r.Success? ==> |r.value| == |SeriesNumbers(daily, TemperatureMaxKey).value|
    ensures r.Success? ==> forall i :: 0 <= i < |r.value| ==>
      var maxs := SeriesNumbers(daily, TemperatureMaxKey).value;
      var mins := SeriesNumbers(daily, TemperatureMinKey).value;
      var avgs := SeriesNumbers(daily, TemperatureAverageKey).value;
      (r.value[i].Some? <==> i < |mins| && i < |avgs|) &&
      (r.value[i].Some? ==> r.value[i].value == TemperatureReading(mins[i], maxs[i], avgs[i]))
  {
    match SeriesNumbers(daily, TemperatureMaxKey)
    case Failure(e) => Failure(e)
    case Success(maxs) =>
      match SeriesNumbers(daily, TemperatureMinKey)
      case Failure(e) => Failure(e)
      case Success(mins) =>
        match SeriesNumbers(daily, TemperatureAverageKey)
        case Failure(e) => Failure(e)
        case Success(avgs) =>
          Success(seq(|maxs|, i requires 0 <= i < |maxs| =>
            if i < |mins| && i < |avgs| then Some(TemperatureReading(mins[i], maxs[i], avgs[i])) else None))
  }

  /** The values a one-column bulk insert reads: one amount per element of the series. */
  function AmountReadings(daily: map<string, seq<Value>>, key: string): (r: Result<seq<Option<Reading>>>)
    ensures r.Success? <==> SeriesNumbers(daily, key).Success?
    ensures r.Success? ==> |r.value| == |SeriesNumbers(daily, key).value|
    ensures r.Success? ==> forall i :: 0 <= i < |r.value| ==>
      r.value[i] == Some(Amount(SeriesNumbers(daily, key).value[i]))
  {
    match SeriesNumbers(daily, key)
    case Failure(e) => Failure(e)
    case Success(xs) => Success(seq(|xs|, i requires 0 <= i < |xs| => Some(Amount(xs[i]))))
  }

  /** The rows one bulk insert adds to a table holding `rows`, or what it throws. */
  function BulkRows(rows: seq<Row>, readings: Result<seq<Option<Reading>>>, timeList: seq<Day>, locationId: nat)
    : Result<seq<Row>>
  {
    match readings
    case Failure(e) => Failure(e)
    case Success(rs) => NewRows(DatesOf(rows, locationId), timeList, rs, locationId, |rs|)
  }

  /**
   * Storing a bulk insert's rows and repeating it adds nothing: the
   * persister is idempotent for a location and a table.
   */
  lemma BulkRowsIdempotent(rows: seq<Row>, readings: Result<seq<Option<Reading>>>, timeList: seq<Day>, locationId: nat)
    requires BulkRows(rows, readings, timeList, locationId).Success?
    ensures var added := BulkRows(rows, readings, timeList, locationId).value;
      BulkRows(rows + added, readings, timeList, locationId) == Success([])
  {
    var rs := readings.value;
    var added := BulkRows(rows, readings, timeList, locationId).value;
    NewRowsSound(DatesOf(rows, locationId), timeList, rs, locationId, |rs|);
    assert forall i :: 0 <= i < |added| ==> added[i].locationId == locationId by {
      forall i | 0 <= i < |added| ensures added[i].locationId == locationId {
        assert added[i] in added;
      }
    }
    AppendedDates(rows, added, locationId);
    assert DatesOf(rows + added, locationId) == DatesOf(rows, locationId) + RowDates(added);
    NewRowsAgainIsEmpty(DatesOf(rows, locationId), timeList, rs, locationId, |rs|);
  }

  /**
   * After a bulk insert, every day it read is stored for the location, and
   * no row was added for a day that was already stored.
   */
  lemma BulkRowsStoresEveryDay(rows: seq<Row>, readings: Result<seq<Option<Reading>>>, timeList: seq<Day>,
    locationId: nat, i: nat)
    requires BulkRows(rows, readings, timeList, locationId).Success?
    requires i < |readings.value|
    ensures i < |timeList|
    ensures timeList[i] in DatesOf(rows + BulkRows(rows, readings, timeList, locationId).value, locationId)
    ensures forall row :: row in BulkRows(rows, readings, timeList, locationId).value ==>
      row.date !in DatesOf(rows, locationId)
  {
    var rs := readings.value;
    var added := BulkRows(rows, readings, timeList, locationId).value;
    var existing := DatesOf(rows, locationId);
    NewRowsSucceedsIff(existing, timeList, rs, locationId, |rs|);
    assert Insertable(existing, timeList, rs, i);
    NewRowsSound(existing, timeList, rs, locationId, |rs|);
    NewRowsComplete(existing, timeList, rs, locationId, |rs|);
    forall k | 0 <= k < |added| ensures added[k].locationId == locationId {
      assert added[k] in added;
    }
    AppendedDates(rows, added, locationId);
    if timeList[i] !in existing {
      var k :| 0 <= k < |added| && added[k] == Row(locationId, timeList[i], rs[i].value);
      assert added[k].date in (set j | 0 <= j < |added| :: added[j].date);
    }
  }

  /** Finding a location by name, or adding it with the next identity. */
  function LocationFor(locations: seq<Location>, name: string, latitude: real, longitude: real)
    : (r: (seq<Location>, Location))
    ensures FindLocation(locations, name).Some? ==> r == (locations, FindLocation(locations, name).value)
    ensures FindLocation(locations, name).None? ==>
      r.0 == locations + [r.1] && r.1 == Location(|locations| + 1, name, latitude, longitude)
    ensures FindLocation(r.0, name) == Some(r.1)
  {
    match FindLocation(locations, name)
    case Some(location) => (locations, location)
    case None =>
      var location := Location(|locations| + 1, name, latitude, longitude);
      FindLocationAppend(locations, location, name);
      (locations + [location], location)
  }

  /**
   * Asking for the same name again returns the same location and adds
   * nothing, whatever coordinates are passed; identities stay 1, 2, 3, ...
   */
  lemma LocationForIdempotent(locations: seq<Location>, name: string, latitude: real, longitude: real,
    latitude2: real, longitude2: real)
    requires forall i :: 0 <= i < |locations| ==> locations[i].id == i + 1
    ensures var (after, location) := LocationFor(locations, name, latitude, longitude);
      LocationFor(after, name, latitude2, longitude2) == (after, location) &&
      forall i :: 0 <= i < |after| ==> after[i].id == i + 1
  {
  }

  /** The bulk insert's outcome as the source reports it. */
  function OutcomeOf(r: Result<seq<Row>>): Outcome {
    if r.Success? then Pass else Fail(r.error)
  }

  /**
   * What one bulk insert does to the tables: its outcome, and the table
   * with the new rows appended when there are any.
   */
  function BulkEffect(tables: map<Table, seq<Row>>, table: Table, readings: Result<seq<Option<Reading>>>,
    timeList: seq<Day>, locationId: nat): (Outcome, map<Table, seq<Row>>)
  {
    var r := BulkRows(TableRows(tables, table), readings, timeList, locationId);
    (OutcomeOf(r),
     if r.Success? && r.value != [] then tables[table := TableRows(tables, table) + r.value] else tables)
  }

  /**
   * A bulk insert only appends: the table's existing rows stay as they
   * were, in front, every other table is unchanged, and a failing insert
   * changes nothing.
   */
  lemma BulkEffectAppendsOnly(tables: map<Table, seq<Row>>, table: Table, readings: Result<seq<Option<Reading>>>,
    timeList: seq<Day>, locationId: nat, other: Table)
    ensures var (outcome, after) := BulkEffect(tables, table, readings, timeList, locationId);
      |TableRows(tables, table)| <= |TableRows(after, table)| &&
      TableRows(after, table)[..|TableRows(tables, table)|] == TableRows(tables, table) &&
      (other != table ==> TableRows(after, other) == TableRows(tables, other)) &&
      (outcome.Fail? ==> after == tables)
  {
  }

  /** The store handler: every operation works on the one context it was created with. */
  class DBHandler {
    const context: WeatherContext

    constructor (context: WeatherContext)
      ensures this.context == context
    {
      this.context := context;
    }

    /** GetOrCreateLocationAsync: the first location with the name, or a new one with the next identity. */
    method GetOrCreateLocation(locationName: string, latitude: real, longitude: real) returns (location: Location)
      modifies context
      requires context.Valid()
      ensures context.Valid()
      ensures (context.locations, location) == LocationFor(old(context.locations), locationName, latitude, longitude)
      ensures context.tables == old(context.tables)
    {
      var found := FindLocation(context.locations, locationName);
      if found.Some? {
        location := found.value;
      } else {
        location := Location(|context.locations| + 1, locationName, latitude, longitude);
        context.locations := context.locations + [location];
      }
    }

    /**
     * The body the five bulk inserts share: collect the new rows and, when
     * there are any, append them to the table.
     */
    method InsertNew(table: Table, readings: Result<seq<Option<Reading>>>, timeList: seq<Day>, location: Location)
      returns (outcome: Outcome)
      modifies context
      ensures context.locations == old(context.locations)
      ensures (outcome, context.tables) == BulkEffect(old(context.tables), table, readings, timeList, location.id)
    {
      if readings.Failure? {
        return Fail(readings.error);
      }
      var existing := DatesOf(context.Rows(table), location.id);
      var rows := CollectNewRows(existing, timeList, readings.value, location.id);
      if rows.Failure? {
        return Fail(rows.error);
      }
      if rows.value != [] {
        context.tables := context.tables[table := context.Rows(table) + rows.value];
      }
      return Pass;
    }

    /** AddTemperatureBulk: the new days of the maximum, minimum and average series. */
    method AddTemperatureBulk(weatherData: WeatherDataResponse, timeList: seq<Day>, location: Location)
      returns (outcome: Outcome)
      modifies context
      ensures context.locations == old(context.locations)
      ensures (outcome, context.tables) ==
        BulkEffect(old(context.tables), Temperature, TemperatureReadings(weatherData.daily), timeList, location.id)
    {
      outcome := InsertNew(Temperature, TemperatureReadings(weatherData.daily), timeList, location);
    }

    /** AddPrecipitationHoursBulk: the new days of the precipitation-hours series. */
    method AddPrecipitationHoursBulk(weatherData: WeatherDataResponse, timeList: seq<Day>, location: Location)
      returns (outcome: Outcome)
      modifies context
      ensures context.locations == old(context.locations)
      ensures (outcome, context.tables) ==
        BulkEffect(old(context.tables), PrecipitationHours, AmountReadings(weatherData.daily, PrecipitationHoursKey), timeList, location.id)
    {
      outcome := InsertNew(PrecipitationHours, AmountReadings(weatherData.daily, PrecipitationHoursKey), timeList, location);
    }

    /** AddPrecipitationSumBulk: the new days of the precipitation-sum series. */
    method AddPrecipitationSumBulk(weatherData: WeatherDataResponse, timeList: seq<Day>, location: Location)
      returns (outcome: Outcome)
      modifies context
      ensures context.locations == old(context.locations)
      ensures (outcome, context.tables) ==
        BulkEffect(old(context.tables), Precipitation, AmountReadings(weatherData.daily, PrecipitationSumKey), timeList, location.id)
    {
      outcome := InsertNew(Precipitation, AmountReadings(weatherData.daily, PrecipitationSumKey), timeList, location);
    }

    /** AddRadiationBulk: the new days of the short-wave radiation series. */
    method AddRadiationBulk(weatherData: WeatherDataResponse, timeList: seq<Day>, location: Location)
      returns (outcome: Outcome)
      modifies context
      ensures context.locations == old(context.locations)
      ensures (outcome, context.tables) ==
        BulkEffect(old(context.tables), Radiation, AmountReadings(weatherData.daily, RadiationKey), timeList, location.id)
    {
      outcome := InsertNew(Radiation, AmountReadings(weatherData.daily, RadiationKey), timeList, location);
    }

    /** AddWindBulk: the new days of the maximum wind speed series. */
    method AddWindBulk(weatherData: WeatherDataResponse, timeList: seq<Day>, location: Location)
      returns (outcome: Outcome)
      modifies context
      ensures context.locations == old(context.locations)
      ensures (outcome, context.tables) ==
        BulkEffect(old(context.tables), Wind, AmountReadings(weatherData.daily, WindSpeedKey), timeList, location.id)
    {
      outcome := InsertNew(Wind, AmountReadings(weatherData.daily, WindSpeedKey), timeList, location);
    }

    /** GetLocation: the stored location the request names. */
    function GetLocation(request: WeatherDataRequest): (r: Result<Location>)
      reads context
      ensures r.Failure? <==> forall i :: 0 <= i < |context.locations| ==> context.locations[i].locationName != request.location
      ensures r.Failure? ==> r.error == ArgumentError
      ensures r.Success? ==> r.value in context.locations && r.value.locationName == request.location
    {
      match FindLocation(context.locations, request.location)
      case None => Failure(ArgumentError)
      case Some(location) => Success(location)
    }

    /**
     * GetWeatherDataDynamic: the rows of the parameter's table for the
     * request's location dated within the request's range, each as often as
     * the table holds it; the store promises no order.
     */
    function GetWeatherDataDynamic(request: WeatherDataRequest, parameterKey: string)
      : (r: Result<seq<Row>>)
      reads context
      ensures r.Success? <==>
        parameterKey != "" && parameterKey in ParameterMappings.TableNameMapping &&
        GetLocation(request).Success?
      ensures r.Failure? ==> r.error == ArgumentError
      ensures r.Success? ==>
        var location := GetLocation(request).value;
        var table := ParameterMappings.TableOf(ParameterMappings.TableNameMapping[parameterKey]);
        table.Some? &&
        (forall row :: row in r.value <==>
           (row in context.Rows(table.value) && row.locationId == location.id &&
            request.startDate <= row.date <= request.endDate)) &&
        (forall row :: multiset(r.value)[row] ==
           (if row.locationId == location.id && request.startDate <= row.date <= request.endDate
            then multiset(context.Rows(table.value))[row] else 0))
    {
      if parameterKey == "" || parameterKey !in ParameterMappings.TableNameMapping then Failure(ArgumentError)
      else
        var tableName := ParameterMappings.TableNameMapping[parameterKey];
        match GetLocation(request)
        case Failure(e) => Failure(e)
        case Success(location) =>
          // Every value of TableNameMapping names a table, so the source's
          // check for an unknown table name never throws.
          ParameterMappings.TableNameMappingInjective();
          var table := ParameterMappings.TableOf(tableName).value;
          Success(RowsInRange(context.Rows(table), location.id, request.startDate, request.endDate))
    }
  }
}
