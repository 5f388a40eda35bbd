# WeatherThreading in Dafny

This project models the server core of WeatherThreading, a weather-history
service. The service:

- takes a request for a city, a date range and a list of weather parameters;
- widens the range to whole calendar years, capped at today;
- splits the range into chunks of at most 366 days;
- fetches every chunk from the historical-weather API;
- merges the chunk responses in chunk order into one dataset of named series;
- stores the days it does not yet hold in five observation tables
  (Temperature, Precipitation, PrecipitationHours, Radiation, Wind).

Three utilities read the store or shape data for a chart, though nothing in the server calls them:

- `TimeRangeTools.AreDatesContinuousAsync`;
- `DBHandler.GetWeatherDataDynamic`;
- `DataProcessor.FormatWeatherData`.

The model covers them too.

The modules follow the server's files:

| module | file | form |
|---|---|---|
| `Dates` | the calendar behind `DateTime` | days are `nat`s counted from 1 January of year 1 |
| `Models` | `Models/*.cs` | datatypes for the upstream response, merged dataset, request, chart response, locations and rows |
| `Store` | `Data/WeatherContext.cs` (lines 14-19) | class `WeatherContext` holding the location list and the five tables |
| `ParameterMappings` | `Utils/ParameterMappings.cs` | the constant dictionaries |
| `TimeRangeTools`, `TimeRangeSplitter` | `Utils/TimeRangeTools.cs`, `Utils/TimeRangeSplitter.cs` | the splitting loop as a method proved against `RangeChunks`; the continuity check as a function |
| `DailyMerge`, `DataProcessor` | `Utils/DataProcessor.cs` | the merge loop as a method proved against `MergedDaily`; the average and the chart formatting as functions |
| `Persistence` | `Utils/DBHandler.cs` | class `DBHandler` whose bulk inserts change the store; each is proved against `BulkEffect` |
| `WeatherService` | `Services/WeatherService.cs` | class `WeatherService`; the acquisition pipeline is proved against `FetchedAndMerged` and `SaveEffect` |

Exceptions are modelled as error values:

- `Result` for functions that compute a value;
- `Outcome` for operations that only change the store.

The error kinds are:

- `KeyNotFound` for a missing dictionary key;
- `InvalidCast` for a failed `Cast<double>()` or `Cast<string>()`;
- `IndexOutOfRange` for an index past a list's end, including a negative `Enumerable.Range` count;
- `ArgumentError` for an `ArgumentException`;
- `InvalidOperation` for a chart with no point in range;
- `FormatError` for a `DateTime.Parse` or `Convert.ToDouble` of a string that is not a date or a number;
- `GeneralError` for a plain `Exception`, such as merging no results.

## Model

| member | source | states |
|---|---|---|
| Dates.YearOf | WeatherThreading.Server/Utils/TimeRangeTools.cs:18-19 | every day lies between the first and last day of its year |
| Dates.YearOfUnique | WeatherThreading.Server/Utils/TimeRangeTools.cs:18-19 | the year of a day is the only year whose span contains it |
| ParameterMappings.TableOf | WeatherThreading.Server/Utils/TimeRangeTools.cs:71-116 | a table name resolves to a table exactly when it is one of the values of TableNameMapping |
| ParameterMappings.TableMappingsShareKeys | WeatherThreading.Server/Utils/ParameterMappings.cs:15-40 | the table-name, table-column and request-column mappings have the same five keys |
| ParameterMappings.StoredKeysAreRequestKeysButHumidity | WeatherThreading.Server/Utils/ParameterMappings.cs:5-22 | every requestable parameter has a table except relative humidity |
| ParameterMappings.TableNameMappingInjective | WeatherThreading.Server/Utils/ParameterMappings.cs:15-22 | distinct parameter keys name distinct tables, and each named table exists |
| ParameterMappings.RequestColumnsAddDate | WeatherThreading.Server/Utils/ParameterMappings.cs:24-40 | each request column list is the table's value column followed by the Date column |
| ParameterMappings.SplitAfterName | WeatherThreading.Server/Services/WeatherService.cs:108 | splitting a comma-joined parameter list gives back the first name, then the split of the rest |
| ParameterMappings.TemperatureExpandsToTwoNames | WeatherThreading.Server/Utils/ParameterMappings.cs:7 | the temperature key asks upstream for the daily maximum and minimum series |
| ParameterMappings.OtherKeysExpandToOneName | WeatherThreading.Server/Utils/ParameterMappings.cs:8-12 | every other requestable key asks upstream for exactly one series |
| TimeRangeTools.NormalisedStart | WeatherThreading.Server/Utils/TimeRangeTools.cs:18 | the widened start is 1 January of the start's year, on or before the start |
| TimeRangeTools.ClampedEnd | WeatherThreading.Server/Utils/TimeRangeTools.cs:19-25 | the widened end is 31 December of the end's year or today, whichever is earlier, and covers an end that is not in the future |
| TimeRangeTools.SplitTimeRange | WeatherThreading.Server/Utils/TimeRangeTools.cs:11-43 | the loop yields RangeChunks; the chunks are non-empty, within the widened range, contiguous, and absent exactly when the widened range has no second day |
| TimeRangeSplitter.SplitTimeRange | WeatherThreading.Server/Utils/TimeRangeSplitter.cs:13-40 | the duplicate splitter used by the service yields the same chunks with the same guarantees |
| TimeRangeTools.ChunksFromBounded | WeatherThreading.Server/Utils/TimeRangeTools.cs:30-39 | every chunk lies within the range, starts before it ends, and ends at most 365 days after its start |
| TimeRangeTools.ChunksFromContiguous | WeatherThreading.Server/Utils/TimeRangeTools.cs:30-39 | the first chunk starts at the range start, and each later chunk starts the day after the previous one ends |
| TimeRangeTools.ChunksFromFull | WeatherThreading.Server/Utils/TimeRangeTools.cs:32-36 | every chunk but the last spans exactly 366 days |
| TimeRangeTools.ChunksFromEmpty | WeatherThreading.Server/Utils/TimeRangeTools.cs:30 | there are no chunks exactly when the end is not after the start |
| TimeRangeTools.ChunksFromCover | WeatherThreading.Server/Utils/TimeRangeTools.cs:30-39 | a day is covered iff it lies in the range, except that the last day is lost when the range's length minus one is a multiple of 366 |
| TimeRangeTools.TwoYearsMakeTwoChunks | WeatherThreading.Server/Utils/TimeRangeTools.cs:11-43 | a request spanning years 1 and 2 is widened to both years and fetched as two chunks |
| TimeRangeTools.ClampedEndCanBeMissed | WeatherThreading.Server/Utils/TimeRangeTools.cs:30-39 | when today is the day after a full chunk, today is in no chunk |
| TimeRangeTools.FirstOfJanuaryRequestsNothing | WeatherThreading.Server/Utils/TimeRangeTools.cs:21-30 | on 1 January, a request within the current year yields no chunk at all |
| TimeRangeTools.ExpectedDates | WeatherThreading.Server/Utils/TimeRangeTools.cs:48-50 | the expected dates are exactly the days from start to end, one per day |
| TimeRangeTools.AreDatesContinuous | WeatherThreading.Server/Utils/TimeRangeTools.cs:45-123 | a range ending more than a day before it starts is out of range; a missing or unknown first parameter is an argument error, and so is an unknown location; otherwise the call always answers, and the answer is true iff every day of the range has a row for the location in the parameter's table |
| TimeRangeTools.CoversIffEveryDay | WeatherThreading.Server/Utils/TimeRangeTools.cs:119-121 | the set comparison holds iff every expected day has a stored row |
| TimeRangeTools.CoverageIgnoresIrrelevantRows | WeatherThreading.Server/Utils/TimeRangeTools.cs:76-80 | rows for other locations or outside the range do not change the answer |
| TimeRangeTools.MonthOfRowsCovers | WeatherThreading.Server/Utils/TimeRangeTools.cs:119-121 | 31 consecutive daily rows cover those 31 days |
| TimeRangeTools.MissingDayBreaksCoverage | WeatherThreading.Server/Utils/TimeRangeTools.cs:119-121 | one missing day in the range makes the answer false |
| Store.FindLocation | WeatherThreading.Server/Utils/DBHandler.cs:19 | the first location with the name, none iff no location has it |
| Store.FindLocationAppend | WeatherThreading.Server/Utils/DBHandler.cs:19-30 | adding a location does not change the lookup of a name already present, and finds the new one otherwise |
| Store.DatesOf | WeatherThreading.Server/Utils/DBHandler.cs:42-45 | the stored dates of a location are exactly the dates of its rows |
| Store.RowsInRange | WeatherThreading.Server/Utils/DBHandler.cs:240-274 | the selected rows are exactly the location's rows dated within the range, each as many times as the table holds it |
| Store.OtherLocationsKeepDates | WeatherThreading.Server/Utils/DBHandler.cs:42-45 | rows of other locations do not change a location's stored dates |
| Store.AppendedDates | WeatherThreading.Server/Utils/DBHandler.cs:68-72 | appending a location's rows adds exactly their dates |
| DailyMerge.MergeDaily | WeatherThreading.Server/Utils/DataProcessor.cs:23-98 | the per-chunk loop produces MergedDaily: the dates of every chunk in chunk order, plus each series that some chunk carries, concatenated in chunk order |
| DailyMerge.MergeChunk | WeatherThreading.Server/Utils/DataProcessor.cs:25-97 | merging one more chunk extends a merge of the earlier chunks to a merge of all of them |
| DailyMerge.AppendIfAny | WeatherThreading.Server/Utils/DataProcessor.cs:32-39 | an empty series leaves the dataset alone; otherwise the series is appended under its key, creating the key if needed |
| DailyMerge.MergedDailyAt | WeatherThreading.Server/Utils/DataProcessor.cs:23-98 | the date key is always present; a value key is present iff some chunk carries that series, and holds the chunks' values in order |
| DailyMerge.MergeIsUnique | WeatherThreading.Server/Utils/DataProcessor.cs:23-98 | any dataset meeting the merge invariant is MergedDaily |
| DailyMerge.ConcatTimesMembers | WeatherThreading.Server/Utils/DataProcessor.cs:29 | a day is among the merged dates iff some chunk reported it |
| DailyMerge.ConcatTimesLength | WeatherThreading.Server/Utils/DataProcessor.cs:29 | the merged date list is as long as all chunks' date lists together |
| DailyMerge.ValueKeysDistinct | WeatherThreading.Server/Utils/DataProcessor.cs:32-97 | the seven merged series keys are distinct, and differ from the date and average keys |
| DataProcessor.CastNumbers | WeatherThreading.Server/Utils/DataProcessor.cs:102-103 | the cast succeeds iff every element is a number, and gives those numbers back |
| DataProcessor.AverageTemperatures | WeatherThreading.Server/Utils/DataProcessor.cs:107-112 | defined iff there are no more maxima than minima, and then the i-th average is the mean of the i-th maximum and minimum; otherwise index out of range |
| DataProcessor.AverageLiesBetween | WeatherThreading.Server/Utils/DataProcessor.cs:110 | each average lies between that day's minimum and maximum |
| DataProcessor.MergeResults | WeatherThreading.Server/Utils/DataProcessor.cs:8-116 | the method yields MergedResponse: an error for no results; otherwise the first result's position, the merged series, and the average when both temperature series are present |
| DataProcessor.MergeResultsFailsIff | WeatherThreading.Server/Utils/DataProcessor.cs:10-13 | the merge fails iff there are no results, or the minimum series is shorter than a present maximum series |
| DataProcessor.MergedResponseKeys | WeatherThreading.Server/Utils/DataProcessor.cs:16-113 | the merged keys are the date key, the carried series, and the average iff both temperatures are carried; the position is the first result's |
| DataProcessor.MergedAverage | WeatherThreading.Server/Utils/DataProcessor.cs:100-113 | each merged average lies between the merged minimum and maximum of that position |
| DataProcessor.MergedAverageSeries | WeatherThreading.Server/Utils/DataProcessor.cs:100-113 | the merged average series is the element-wise mean of the concatenated maxima and minima |
| DataProcessor.TwoChunksAverage | WeatherThreading.Server/Utils/DataProcessor.cs:8-116 | two chunks of two and one days merge into three dates with averages 6, 8 and 10 |
| DataProcessor.ClipPoints | WeatherThreading.Server/Utils/DataProcessor.cs:127-134 | pairing fails iff some date is not a date, or its value is missing or not a number (a format error, or out of range for a missing value); otherwise there are at most as many points as dates, all within the requested range |
| DataProcessor.ClipPointsSnoc | WeatherThreading.Server/Utils/DataProcessor.cs:127-134 | one more aligned pair appends its point at the end when its date is in range and adds nothing otherwise, so the points keep input order and duplicates, never re-sorted or merged |
| DataProcessor.ClipPointsMembers | WeatherThreading.Server/Utils/DataProcessor.cs:127-134 | a point is kept iff it pairs some date in the range with the value at the same position |
| DataProcessor.ClipPointsAscending | WeatherThreading.Server/Utils/DataProcessor.cs:127-147 | ascending input dates give chart points in ascending date order |
| DataProcessor.ValueKey | WeatherThreading.Server/Utils/DataProcessor.cs:125 | the value key is the one key other than the date key |
| DataProcessor.OneValueKey | WeatherThreading.Server/Utils/DataProcessor.cs:120-125 | a dataset passing the guard has exactly one value key |
| DataProcessor.FormatWeatherData | WeatherThreading.Server/Utils/DataProcessor.cs:118-158 | anything but the date key plus one value key is an argument error; a success titles the axes "Date" and the value key, and holds under "data" only, non-empty, exactly the points ClipPoints yields for the date series and that value series |
| DataProcessor.FormatWeatherDataSucceedsIff | WeatherThreading.Server/Utils/DataProcessor.cs:127-139 | formatting succeeds iff every index pairs a date with a number and some date lies in the range; with nothing in range it is an invalid operation |
| Persistence.CollectNewRows | WeatherThreading.Server/Utils/DBHandler.cs:50-66 | the loop yields NewRows over all readings |
| Persistence.NewRowsFailureSticks | WeatherThreading.Server/Utils/DBHandler.cs:50-66 | once the loop has thrown, later iterations do not change the result |
| Persistence.NewRowsSucceedsIff | WeatherThreading.Server/Utils/DBHandler.cs:50-66 | the loop succeeds iff every index has a date, and every date not yet stored has its reading; on failure the error is index out of range |
| Persistence.NewRowsSound | WeatherThreading.Server/Utils/DBHandler.cs:54-64 | every new row belongs to the location, carries a listed date that was not stored, and holds that index's reading |
| Persistence.NewRowsComplete | WeatherThreading.Server/Utils/DBHandler.cs:54-65 | every listed date that was not stored gets a row |
| Persistence.NewRowsAgainIsEmpty | WeatherThreading.Server/Utils/DBHandler.cs:42-66 | re-running the loop after storing its rows adds nothing |
| Persistence.AllStoredIsEmpty | WeatherThreading.Server/Utils/DBHandler.cs:54-55 | when every listed date is stored, nothing is added |
| Persistence.RepeatedDateInsertedTwice | WeatherThreading.Server/Utils/DBHandler.cs:42-66 | a date listed twice in one call is added twice, because the stored dates are read once before the loop |
| Persistence.SeriesNumbers | WeatherThreading.Server/Utils/DBHandler.cs:79 | a missing key is KeyNotFound; a present series is read iff all of it is numbers, and gives those numbers |
| Persistence.TemperatureReadings | WeatherThreading.Server/Utils/DBHandler.cs:38-62 | the readings exist iff the maximum, minimum and average series all read as numbers; the i-th holds those three values when the other series reach index i |
| Persistence.AmountReadings | WeatherThreading.Server/Utils/DBHandler.cs:79-96 | one reading per element of the series, holding that element |
| Persistence.BulkRowsIdempotent | WeatherThreading.Server/Utils/DBHandler.cs:42-72 | a second bulk insert of the same readings adds no row |
| Persistence.BulkRowsStoresEveryDay | WeatherThreading.Server/Utils/DBHandler.cs:50-72 | after a successful bulk insert, the date of every reading is stored for the location, and no added row repeats a date stored before |
| Persistence.LocationFor | WeatherThreading.Server/Utils/DBHandler.cs:17-33 | an existing location is returned unchanged; otherwise a new one with the next id is appended; either way, looking the name up afterwards finds it |
| Persistence.LocationForIdempotent | WeatherThreading.Server/Utils/DBHandler.cs:17-33 | resolving the same city twice creates at most one location |
| Persistence.BulkEffectAppendsOnly | WeatherThreading.Server/Utils/DBHandler.cs:68-72 | a bulk insert changes only its own table, only by appending rows, and nothing at all when it throws |
| Persistence.DBHandler.GetOrCreateLocation | WeatherThreading.Server/Utils/DBHandler.cs:17-33 | the store's locations and the returned location are LocationFor's; the tables are unchanged |
| Persistence.DBHandler.AddTemperatureBulk | WeatherThreading.Server/Utils/DBHandler.cs:35-73 | the outcome and tables are BulkEffect on Temperature with the temperature readings; the locations are unchanged |
| Persistence.DBHandler.AddPrecipitationHoursBulk | WeatherThreading.Server/Utils/DBHandler.cs:75-107 | the outcome and tables are BulkEffect on PrecipitationHours with that series |
| Persistence.DBHandler.AddPrecipitationSumBulk | WeatherThreading.Server/Utils/DBHandler.cs:109-140 | the outcome and tables are BulkEffect on Precipitation with that series |
| Persistence.DBHandler.AddRadiationBulk | WeatherThreading.Server/Utils/DBHandler.cs:142-173 | the outcome and tables are BulkEffect on Radiation with that series |
| Persistence.DBHandler.AddWindBulk | WeatherThreading.Server/Utils/DBHandler.cs:175-206 | the outcome and tables are BulkEffect on Wind with that series |
| Persistence.DBHandler.GetLocation | WeatherThreading.Server/Utils/DBHandler.cs:208-219 | fails with an argument error iff no stored location has the name; otherwise returns a stored location with that name |
| Persistence.DBHandler.GetWeatherDataDynamic | WeatherThreading.Server/Utils/DBHandler.cs:221-277 | succeeds iff the key names a table and the location is stored, and then returns that table's rows for the location within the range, each as many times as the table holds it, in no promised order; otherwise an argument error |
| WeatherService.ApiParameters | WeatherThreading.Server/Services/WeatherService.cs:50-52 | one upstream name per requested key, in order; a known key maps to its own entry of the parameter mapping, and an unknown one passes through unchanged |
| WeatherService.ApiParametersAppend | WeatherThreading.Server/Services/WeatherService.cs:50-52 | the translation works key by key, so it keeps the request's order |
| WeatherService.TemperatureAndRainParameters | WeatherThreading.Server/Services/WeatherService.cs:50-52 | temperature, rain and an unknown key translate to both temperature series, rain and the unknown key |
| WeatherService.ChunkRequests | WeatherThreading.Server/Services/WeatherService.cs:61-78 | one fetch per chunk, in chunk order, with the city's position and the translated parameters |
| WeatherService.FetchAll | WeatherThreading.Server/Services/WeatherService.cs:80 | all fetches succeed iff each does, and the i-th result is the i-th fetch's; a failure is the failure of some fetch |
| WeatherService.MergeWeatherDataResults | WeatherThreading.Server/Services/WeatherService.cs:132-224 | the method yields ServiceMerged: the merge under the "time" key, with the first result's timezone |
| WeatherService.ServiceMergedKeys | WeatherThreading.Server/Services/WeatherService.cs:132-224 | the keys are "time" plus the carried series and never the average; the dates are the chunks' dates in order; the timezone is the first result's |
| WeatherService.TimeDays | WeatherThreading.Server/Services/WeatherService.cs:249 | the cast succeeds iff every element is a date, and gives those dates back; otherwise invalid cast |
| WeatherService.UntriggeredKeysStoreNothing | WeatherThreading.Server/Services/WeatherService.cs:251-274 | a dataset carrying only dates, humidity and minimum temperature stores nothing |
| WeatherService.MergedTemperatureIsNeverStored | WeatherThreading.Server/Services/WeatherService.cs:251-254 | a merged dataset with maximum temperatures makes the temperature insert fail with KeyNotFound before anything is stored, because the service merge never adds the average series |
| WeatherService.UnknownCityFails | WeatherThreading.Server/Services/WeatherService.cs:56 | an unknown city fails with KeyNotFound before any fetch |
| WeatherService.EmptyRangeFails | WeatherThreading.Server/Services/WeatherService.cs:54-82 | a request whose widened range yields no chunk fails in the merge |
| WeatherService.MergedInChunkOrder | WeatherThreading.Server/Services/WeatherService.cs:61-82 | the fetch results are in request order, and the merged dates are the chunks' dates in that order |
| WeatherService.WeatherService.SaveWeatherDataToDB | WeatherThreading.Server/Services/WeatherService.cs:235-285 | the outcome, locations and tables are SaveEffect's: resolve the location, read "time" as dates, then run the guarded inserts |
| WeatherService.WeatherService.StoreSeries | WeatherThreading.Server/Services/WeatherService.cs:251-274 | the five guarded inserts leave the tables as Persisted from the first one, and the locations unchanged |
| WeatherService.WeatherService.GuardedInsert | WeatherThreading.Server/Services/WeatherService.cs:251-274 | an absent key does nothing; a present key runs that table's bulk insert; either way the chain continues as Persisted says |
| WeatherService.WeatherService.GetProcessedWeatherData | WeatherThreading.Server/Services/WeatherService.cs:46-99 | a failure to fetch or merge is returned with the store unchanged; otherwise the store is SaveEffect's, and the result is the merged dataset unless saving failed |

## Left out

- HTTP, JSON deserialisation and the base URL are left out. The upstream call is the parameter `fetch` of the service operations; its failures come back as errors of any kind, unconstrained by the model.
- `GetHistoricalWeatherDataAsync` (WeatherService.cs:26-44) is a fixed single-parameter variant of the fetch that nothing in the core calls. It is not part of this model.
- The semaphore and the concurrent tasks are left out. `FetchAll` states that results are in request order whatever the completion order, as `Task.WhenAll` guarantees.
- DataProcessor.AverageTemperatures: the parallel average (PLINQ) is computed as a sequence in index order. The query has no `AsOrdered()`, so the source does not promise that order; the model states a stronger order than the source. A short minimum series, which there surfaces as an `AggregateException`, is modelled as `IndexOutOfRange`.
- Doubles are `real`s: no rounding, NaN or infinity.
- `DateTime` is a day number. Time of day, `DateTime.UtcNow` (the parameter `today`) and time zones are left out. `DateTime.Parse` of a stored string is the identity on a day. Its `FormatException` is modelled only where a chart series holds something that is not a date.
- `SaveChangesAsync`, Entity Framework change tracking and generated row ids are left out. Rows are appended to the table's sequence, and new location ids are one past the list's length.
- Logging and the `Console.WriteLine` in `GetWeatherDataDynamic` are left out.
- The service's `_context` and its `DBHandler`'s context are injected separately in the source. The model requires them to be the same `WeatherContext`, which stands for the one database both write through to.
- `WeatherService` receives the city table as a constructor parameter instead of reading the static `Dictionaries.CityMapping`.
- The service translates parameters with `Dictionaries.ParameterMapping` (WeatherService.cs:51). That dictionary is equal, entry for entry, to `ParameterMappings.RequestDataMapping`, and the model uses the latter in its place.
- The placeholders `GetWeatherDataFromDB` and `FormatWeatherDataForFrontend` (WeatherService.cs:287-311) do nothing. They are not part of this model.
- The controllers are outside the core and are not part of this model. Some of them read and write the store directly.
- In `GetWeatherDataDynamic`, the unknown-table branch (DBHandler.cs:269-272) cannot be reached, because every value of `TableNameMapping` is a key of the query map. The model therefore has no such branch. The same holds for the `default:` throw of `AreDatesContinuousAsync` (TimeRangeTools.cs:115-116), since every table name in the mapping has a case.
- The `weatherData.Daily != null` test in `SaveWeatherDataToDB` is left out. A merged dataset always has a (possibly empty) map.
- Persistence.DBHandler.AddTemperatureBulk and the other bulk inserts: a `null` element in a `List<object>` is not modelled. Every element is a date or a number.
- The `Store.WeatherContext` class holds only the location list and the five tables, which is what the core reads and writes. Migrations and the model snapshot are left out.
- `Utils/TimeRangeSplitter.cs` declares its class under the name `TimeRangeTools`, the same name as `Utils/TimeRangeTools.cs`. The service calls it as `TimeRangeSplitter`. The model keeps the two copies as the modules `TimeRangeSplitter` and `TimeRangeTools`, and proves that both produce `RangeChunks`.
- `WeatherDataResponse` as declared in `Models/API/WeatherDataRequest.cs` has no timezone, and `WeatherData` as declared in `Models/WeatherData.cs` has none either. `WeatherService.cs:141` nevertheless copies one. The model gives both records a timezone (optional in the merged dataset). `DataProcessor.MergeResults` leaves it unset.
