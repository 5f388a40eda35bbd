/**
 * The constant dictionaries that translate a client's parameter key into
 * upstream parameter names, a store table and its value column.
 */
module ParameterMappings {
  import opened Wrappers
  import opened Models

  /** Parameter key to the comma-separated upstream daily parameter names. */
  const RequestDataMapping: map<string, string> := map[
    "temperature" := "temperature_2m_max,temperature_2m_min",
    "relative_humidity_2m" := "relative_humidity_2m_mean",
    "precipitation_sum" := "precipitation_sum",
    "precipitation_hours" := "precipitation_hours",
    "wind_speed_10m_max" := "wind_speed_10m_max",
    "shortwave_radiation_sum" := "shortwave_radiation_sum"]

  /** Parameter key to the name of the table its observations are stored in. */
  const TableNameMapping: map<string, string> := map[
    "temperature" := "Temperature",
    "precipitation_sum" := "Precipitation",
    "precipitation_hours" := "PrecipitationHours",
    "wind_speed_10m_max" := "Wind",
    "shortwave_radiation_sum" := "Radiation"]

  /** Parameter key to the value column of its table. */
  const TableColumnMapping: map<string, string> := map[
    "temperature" := "TemperatureAverage",
    "precipitation_sum" := "PrecipitationSum",
    "precipitation_hours" := "PrecipitationHoursValue",
    "wind_speed_10m_max" := "WindSpeedMax",
    "shortwave_radiation_sum" := "ShortWaveRadiationSum"]

  /** Parameter key to the columns a projection selects. */
  const RequestColumnsMapping: map<string, string> := map[
    "temperature" := "TemperatureAverage, Date",
    "precipitation_sum" := "PrecipitationSum, Date",
    "precipitation_hours" := "PrecipitationHoursValue, Date",
    "wind_speed_10m_max" := "WindSpeedMax, Date",
    "shortwave_radiation_sum" := "ShortWaveRadiationSum, Date"]

  /**
   * The table a table name denotes: the `switch` of the coverage check and
   * the query dictionary of the dynamic read both dispatch on these names.
   */
  function TableOf(tableName: string): (t: Option<Table>)
    ensures t.Some? <==> tableName in TableNameMapping.Values
  {
    assert TableNameMapping["temperature"] == "Temperature";
    assert TableNameMapping["precipitation_sum"] == "Precipitation";
    assert TableNameMapping["precipitation_hours"] == "PrecipitationHours";
    assert TableNameMapping["wind_speed_10m_max"] == "Wind";
    assert TableNameMapping["shortwave_radiation_sum"] == "Radiation";
    if tableName == "Temperature" then Some(Temperature)
    else if tableName == "Precipitation" then Some(Precipitation)
    else if tableName == "PrecipitationHours" then Some(PrecipitationHours)
    else if tableName == "Radiation" then Some(Radiation)
    else if tableName == "Wind" then Some(Wind)
    else None
  }

  /** The upstream names a mapping value stands for: the value split at its commas. */
  function SplitAtCommas(s: string): (names: seq<string>)
    ensures |names| >= 1
    ensures ',' !in s ==> names == [s]
    decreases |s|
  {
    if s == [] then [[]]
    else
      var rest := SplitAtCommas(s[1..]);
      if s[0] == ',' then [[]] + rest
      else
        assert ',' !in s ==> s == [s[0]] + s[1..];
        [[s[0]] + rest[0]] + rest[1..]
  }

  /** A name without commas followed by a comma splits off as the first name. */
  lemma {:induction false} SplitAfterName(name: string, tail: string)
    requires ',' !in name
    ensures SplitAtCommas(name + [','] + tail) == [name] + SplitAtCommas(tail)
    decreases |name|
  {
    if name == [] {
      assert name + [','] + tail == [','] + tail;
      assert ([','] + tail)[1..] == tail;
    } else {
      var s := name + [','] + tail;
      assert s[0] == name[0] && s[1..] == name[1..] + [','] + tail;
      SplitAfterName(name[1..], tail);
      assert [name[0]] + name[1..] == name;
    }
  }

  /** The three table-keyed dictionaries share one key set. */
  lemma TableMappingsShareKeys()
    ensures TableNameMapping.Keys == TableColumnMapping.Keys == RequestColumnsMapping.Keys
  {
  }

  /** Every key except relative_humidity_2m has a table: humidity can be fetched but not stored. */
  lemma StoredKeysAreRequestKeysButHumidity()
    ensures TableNameMapping.Keys == RequestDataMapping.Keys - {"relative_humidity_2m"}
  {
  }

  /** Distinct keys name distinct tables, and every table name denotes a table. */
  lemma TableNameMappingInjective()
    ensures forall k, k' :: k in TableNameMapping && k' in TableNameMapping && k != k' ==>
      TableNameMapping[k] != TableNameMapping[k']
    ensures forall k :: k in TableNameMapping ==> TableOf(TableNameMapping[k]).Some?
  {
  }

  /** The projected columns are the value column followed by the date column. */
  lemma RequestColumnsAddDate()
    ensures forall k :: k in TableColumnMapping ==>
      k in RequestColumnsMapping && RequestColumnsMapping[k] == TableColumnMapping[k] + ", Date"
  {
  }

  /** "temperature" asks the upstream for two series, max then min. */
  lemma TemperatureExpandsToTwoNames()
    ensures SplitAtCommas(RequestDataMapping["temperature"]) == ["temperature_2m_max", "temperature_2m_min"]
  {
    var max, min := "temperature_2m_max", "temperature_2m_min";
    assert RequestDataMapping["temperature"] == max + [','] + min;
    assert ',' !in max;
    assert ',' !in min;
    SplitAfterName(max, min);
  }

  /** Every other key asks the upstream for a single series. */
  lemma OtherKeysExpandToOneName()
    ensures forall k :: k in RequestDataMapping && k != "temperature" ==>
      SplitAtCommas(RequestDataMapping[k]) == [RequestDataMapping[k]]
  {
    forall k | k in RequestDataMapping && k != "temperature"
      ensures ',' !in RequestDataMapping[k]
    {
      assert k in {"relative_humidity_2m", "precipitation_sum", "precipitation_hours",
                   "wind_speed_10m_max", "shortwave_radiation_sum"};
    }
  }
}
