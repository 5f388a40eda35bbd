/**
 * The records the pipeline passes around: the upstream response, the merged
 * dataset, the request, the chart response, and the stored rows.
 */
module Models {
  import opened Wrappers
  import opened Dates

  /**
   * The `daily` block of one upstream response: parallel arrays, one per
   * daily parameter (an array the response did not carry is empty).
   */
  datatype DailyData = DailyData(
    time: seq<Day>,
    temperature2mMax: seq<real>,
    temperature2mMin: seq<real>,
    relativeHumidity2m: seq<real>,
    precipitationSum: seq<real>,
    precipitationHours: seq<real>,
    windSpeed: seq<real>,
    shortWaveRadiationSum: seq<real>)

  /** One deserialised upstream response, for one chunk of the requested range. */
  datatype WeatherData = WeatherData(latitude: real, longitude: real, timezone: string, daily: DailyData)

  /** One element of a merged series; the source keeps these as `object`. */
  datatype Value = DateValue(day: Day) | NumberValue(number: real)

  /** A merged dataset: named series of values. */
  datatype WeatherDataResponse = WeatherDataResponse(
    latitude: real,
    longitude: real,
    timezone: Option<string>,
    daily: map<string, seq<Value>>)

  /** What a client asks for: a location name, an inclusive day range and parameter keys. */
  datatype WeatherDataRequest = WeatherDataRequest(
    location: string,
    startDate: Day,
    endDate: Day,
    parameters: seq<string>)

  datatype ChartDataPoint = ChartDataPoint(xaxis: Day, yaxis: real)

  datatype WeatherDataGraphResponse = WeatherDataGraphResponse(
    latitude: real,
    longitude: real,
    xAxisTitle: string,
    yAxisTitle: string,
    daily: map<string, seq<ChartDataPoint>>)

  datatype Location = Location(id: nat, locationName: string, latitude: real, longitude: real)

  /** The measured columns of a stored row: three for temperature, one for every other table. */
  datatype Reading =
    | TemperatureReading(temperatureMin: real, temperatureMax: real, temperatureAverage: real)
    | Amount(value: real)

  /** A row of one of the five observation tables; the generated row id is not modelled. */
  datatype Row = Row(locationId: nat, date: Day, reading: Reading)

  /** The five observation tables of the store. */
  datatype Table = Temperature | Precipitation | PrecipitationHours | Radiation | Wind
}
