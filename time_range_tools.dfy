/**
 * Splitting a requested range into upstream-sized chunks, and checking
 * whether the store already holds every day of a range.
 */
module TimeRangeTools {
  import opened Wrappers
  import opened Dates
  import opened Models
  import opened Store
  import ParameterMappings

  /** The largest span, in days after its start, one upstream request may cover. */
  const MaxDaysPerChunk: nat := 365

  /** An inclusive sub-range sent as one upstream request. */
  datatype Chunk = Chunk(start: Day, end: Day)

  /** The start is widened to 1 January of its year. */
  function NormalisedStart(startDate: Day): (first: Day)
    ensures first == YearStart(YearOf(startDate))
    ensures first <= startDate < first + DaysInYear(YearOf(startDate))
  {
    YearStart(YearOf(startDate))
  }

  /** The end is widened to 31 December of its year, then pulled back to today if that is later. */
  function ClampedEnd(endDate: Day, today: Day): (last: Day)
    ensures last <= today && last <= YearEnd(YearOf(endDate))
    ensures last == today || last == YearEnd(YearOf(endDate))
    ensures endDate <= today ==> endDate <= last
  {
    var yearEnd := YearEnd(YearOf(endDate));
    if yearEnd > today then today else yearEnd
  }

  /** The chunks the splitting loop emits from `first` while the start is before `last`. */
  function ChunksFrom(first: Day, last: Day): seq<Chunk>
    decreases last as int - first
  {
    if first < last then
      var end := if first + MaxDaysPerChunk > last then last else first + MaxDaysPerChunk;
      [Chunk(first, end)] + ChunksFrom(end + 1, last)
    else []
  }

  /** The chunk list for a request, given the current date. */
  function RangeChunks(startDate: Day, endDate: Day, today: Day): seq<Chunk> {
    ChunksFrom(NormalisedStart(startDate), ClampedEnd(endDate, today))
  }

  /** Chunks lie within [first, last], are not empty, and span at most MaxDaysPerChunk days. */
  ghost predicate ChunksBounded(chunks: seq<Chunk>, first: Day, last: Day) {
    forall i :: 0 <= i < |chunks| ==>
      first <= chunks[i].start < chunks[i].end <= last &&
      chunks[i].end - chunks[i].start <= MaxDaysPerChunk
  }

  /** The first chunk starts at `first` and each later chunk starts the day after the previous ends. */
  ghost predicate ChunksContiguous(chunks: seq<Chunk>, first: Day) {
    (|chunks| > 0 ==> chunks[0].start == first) &&
    forall i :: 0 <= i < |chunks| - 1 ==> chunks[i + 1].start == chunks[i].end + 1
  }

  /** Some chunk covers day d. */
  ghost predicate Covered(chunks: seq<Chunk>, d: int) {
    exists i :: 0 <= i < |chunks| && chunks[i].start <= d <= chunks[i].end
  }

  lemma {:induction false} ChunksFromBounded(first: Day, last: Day)
    ensures ChunksBounded(ChunksFrom(first, last), first, last)
    decreases last as int - first
  {
    if first < last {
      var end := if first + MaxDaysPerChunk > last then last else first + MaxDaysPerChunk;
      ChunksFromBounded(end + 1, last);
    }
  }

  lemma {:induction false} ChunksFromContiguous(first: Day, last: Day)
    ensures ChunksContiguous(ChunksFrom(first, last), first)
    decreases last as int - first
  {
    if first < last {
      var end := if first + MaxDaysPerChunk > last then last else first + MaxDaysPerChunk;
      ChunksFromContiguous(end + 1, last);
    }
  }

  /** Every chunk but the last spans exactly MaxDaysPerChunk days after its start. */
  ghost predicate AllButLastFull(chunks: seq<Chunk>) {
    forall i :: 0 <= i < |chunks| - 1 ==> chunks[i].end == chunks[i].start + MaxDaysPerChunk
  }

  lemma {:induction false} ChunksFromFull(first: Day, last: Day)
    ensures AllButLastFull(ChunksFrom(first, last))
    decreases last as int - first
  {
    if first < last {
      var end := if first + MaxDaysPerChunk > last then last else first + MaxDaysPerChunk;
      var chunks, rest := ChunksFrom(first, last), ChunksFrom(end + 1, last);
      assert chunks == [Chunk(first, end)] + rest;
      ChunksFromFull(end + 1, last);
      if end == last {
        assert rest == [];
      }
      forall i | 1 <= i < |chunks| - 1 ensures chunks[i].end == chunks[i].start + MaxDaysPerChunk {
        assert chunks[i] == rest[i - 1];
      }
    }
  }

  /** One turn of the splitting loop: the chunk it emits, then the chunks from the day after. */
  lemma ChunksFromStep(done: seq<Chunk>, start: Day, end: Day, last: Day)
    requires start < last
    requires end == if start + MaxDaysPerChunk > last then last else start + MaxDaysPerChunk
    ensures done + ChunksFrom(start, last) == done + [Chunk(start, end)] + ChunksFrom(end + 1, last)
  {
    assert ChunksFrom(start, last) == [Chunk(start, end)] + ChunksFrom(end + 1, last);
  }

  /** No chunks exactly when the (normalised) start is not before the (clamped) end. */
  lemma ChunksFromEmpty(first: Day, last: Day)
    ensures ChunksFrom(first, last) == [] <==> last <= first
  {
  }

  /**
   * The days the chunks cover are [first, last], except that `last` itself is
   * missed when the previous chunk ends the day before it, which happens
   * exactly when last - first is a multiple of MaxDaysPerChunk + 1.
   */
  lemma {:induction false} ChunksFromCover(first: Day, last: Day, d: int)
    ensures Covered(ChunksFrom(first, last), d) <==>
      first <= d <= last && !(d == last && (last - first) % (MaxDaysPerChunk + 1) == 0)
    decreases last as int - first
  {
    var chunks := ChunksFrom(first, last);
    if first < last {
      var end := if first + MaxDaysPerChunk > last then last else first + MaxDaysPerChunk;
      var rest := ChunksFrom(end + 1, last);
      assert chunks == [Chunk(first, end)] + rest;
      ChunksFromCover(end + 1, last, d);
      if end < last {
        assert (last - (end + 1)) % (MaxDaysPerChunk + 1) == (last - first) % (MaxDaysPerChunk + 1);
      }
      if Covered(chunks, d) {
        var i :| 0 <= i < |chunks| && chunks[i].start <= d <= chunks[i].end;
        if i > 0 {
          assert rest[i - 1] == chunks[i];
        }
      }
      if first <= d <= end {
        assert chunks[0].start <= d <= chunks[0].end;
      } else if Covered(rest, d) {
        var i :| 0 <= i < |rest| && rest[i].start <= d <= rest[i].end;
        assert chunks[i + 1] == rest[i];
      }
    }
  }

  /**
   * SplitTimeRange (TimeRangeTools.cs): widen the request to whole years,
   * clamp the end to today, and emit chunks of at most MaxDaysPerChunk days
   * while the next start is before the end.
   */
  method SplitTimeRange(startDate: Day, endDate: Day, today: Day) returns (chunks: seq<Chunk>)
    ensures chunks == RangeChunks(startDate, endDate, today)
    ensures ChunksBounded(chunks, NormalisedStart(startDate), ClampedEnd(endDate, today))
    ensures ChunksContiguous(chunks, NormalisedStart(startDate))
    ensures chunks == [] <==> ClampedEnd(endDate, today) <= NormalisedStart(startDate)
  {
    var first := YearStart(YearOf(startDate));
    var last := YearEnd(YearOf(endDate));
    if last > today {
      last := today;
    }
    chunks := [];
    var currentStart := first;
    assert ChunksFrom(first, last) == chunks + ChunksFrom(currentStart, last);
    while currentStart < last
      invariant ChunksFrom(first, last) == chunks + ChunksFrom(currentStart, last)
      decreases last as int - currentStart
    {
      var currentEnd := currentStart + MaxDaysPerChunk;
      if currentEnd > last {
        currentEnd := last;
      }
      ChunksFromStep(chunks, currentStart, currentEnd, last);
      chunks := chunks + [Chunk(currentStart, currentEnd)];
      currentStart := currentEnd + 1;
    }
    ChunksFromBounded(first, last);
    ChunksFromContiguous(first, last);
    ChunksFromEmpty(first, last);
  }

  /**
   * A request for years 1 and 2 made when year 3 has begun: two chunks, a
   * full one and the remaining 364 days after it.
   */
  lemma TwoYearsMakeTwoChunks()
    ensures RangeChunks(40, 400, 1000) == [Chunk(0, 365), Chunk(366, 729)]
  {
    YearOfUnique(40, 1);
    YearOfUnique(400, 2);
    assert ClampedEnd(400, 1000) == 729;
    assert ChunksFrom(730, 729) == [];
    assert ChunksFrom(366, 729) == [Chunk(366, 729)];
  }

  /**
   * When today is 366 days after the normalised start, the only chunk ends
   * the day before today, so today is never requested.
   */
  lemma ClampedEndCanBeMissed()
    ensures RangeChunks(40, 400, 366) == [Chunk(0, 365)]
    ensures !Covered(RangeChunks(40, 400, 366), 366)
  {
    YearOfUnique(40, 1);
    YearOfUnique(400, 2);
    assert ClampedEnd(400, 366) == 366;
    assert ChunksFrom(366, 366) == [];
    ChunksFromCover(0, 366, 366);
  }

  /** On 1 January of the start year itself nothing is requested at all. */
  lemma FirstOfJanuaryRequestsNothing(startDate: Day, endDate: Day)
    requires YearOf(startDate) == YearOf(endDate)
    ensures RangeChunks(startDate, endDate, NormalisedStart(startDate)) == []
  {
  }

  /** The days of the inclusive range [start, end]. */
  function ExpectedDates(start: Day, end: int): (days: set<Day>)
    ensures forall d :: d in days <==> start <= d <= end
    ensures end >= start - 1 ==> |days| == end - start + 1
    decreases end - start
  {
    if end < start then {}
    else
      var earlier := ExpectedDates(start, end - 1);
      assert end !in earlier;
      earlier + {end}
  }

  /** The location has a row dated `day` in the table. */
  ghost predicate HasRowOn(rows: seq<Row>, locationId: nat, day: int) {
    exists i :: 0 <= i < |rows| && rows[i].locationId == locationId && rows[i].date == day
  }

  /** The coverage test: the location's distinct in-range dates equal the expected days. */
  predicate Covers(rows: seq<Row>, locationId: nat, start: Day, end: Day) {
    ExpectedDates(start, end) == DatesInRange(rows, locationId, start, end)
  }

  /**
   * AreDatesContinuousAsync: the request's first parameter must be a key of
   * TableNameMapping and its location must exist; the answer is whether the
   * store holds a row of that location in the mapped table for every day of
   * [StartDate, EndDate], counted without duplicates.
   */
  function AreDatesContinuous(request: WeatherDataRequest, context: WeatherContext): (r: Result<bool>)
    reads context
    ensures request.endDate < request.startDate - 1 ==> r == Failure(IndexOutOfRange)
    ensures (request.endDate >= request.startDate - 1 &&
             (|request.parameters| == 0 || request.parameters[0] !in ParameterMappings.TableNameMapping)) ==>
            r == Failure(ArgumentError)
    ensures (request.endDate >= request.startDate - 1 &&
             FindLocation(context.locations, request.location).None?) ==>
            r == Failure(ArgumentError)
    ensures (request.endDate >= request.startDate - 1 &&
             |request.parameters| > 0 && request.parameters[0] in ParameterMappings.TableNameMapping &&
             FindLocation(context.locations, request.location).Some?) ==>
            r.Success?
    ensures r.Success? ==>
      exists location, t :: (FindLocation(context.locations, request.location) == Some(location) &&
        ParameterMappings.TableOf(ParameterMappings.TableNameMapping[request.parameters[0]]) == Some(t) &&
        (r.value <==> forall d :: request.startDate <= d <= request.endDate ==>
                        HasRowOn(context.Rows(t), location.id, d)))
  {
    var start, end := request.startDate, request.endDate;
    if end as int - start + 1 < 0 then Failure(IndexOutOfRange)
    else
      var parameterKey := if |request.parameters| == 0 then "" else request.parameters[0];
      if parameterKey == "" || parameterKey !in ParameterMappings.TableNameMapping then Failure(ArgumentError)
      else match FindLocation(context.locations, request.location)
        case None => Failure(ArgumentError)
        case Some(location) =>
          ParameterMappings.TableNameMappingInjective();
          var t := ParameterMappings.TableOf(ParameterMappings.TableNameMapping[parameterKey]).value;
          CoversIffEveryDay(context.Rows(t), location.id, start, end);
          Success(Covers(context.Rows(t), location.id, start, end))
  }

  /** Coverage holds exactly when every day of the range has a row of the location. */
  lemma CoversIffEveryDay(rows: seq<Row>, locationId: nat, start: Day, end: Day)
    ensures Covers(rows, locationId, start, end) <==>
      forall d :: start <= d <= end ==> HasRowOn(rows, locationId, d)
  {
    if forall d :: start <= d <= end ==> HasRowOn(rows, locationId, d) {
      forall d | d in ExpectedDates(start, end) ensures d in DatesInRange(rows, locationId, start, end) {
        assert HasRowOn(rows, locationId, d);
        assert d in DatesOf(rows, locationId);
      }
    } else {
      var d :| start <= d <= end && !HasRowOn(rows, locationId, d);
      assert d in ExpectedDates(start, end);
      assert d !in DatesInRange(rows, locationId, start, end);
    }
  }

  /**
   * Rows of other locations, rows outside the range and rows repeating a
   * date already present never change the answer.
   */
  lemma CoverageIgnoresIrrelevantRows(rows: seq<Row>, extra: seq<Row>, locationId: nat, start: Day, end: Day)
    requires forall i :: 0 <= i < |extra| ==>
      extra[i].locationId != locationId || extra[i].date < start || extra[i].date > end ||
      extra[i].date in DatesOf(rows, locationId)
    ensures Covers(rows + extra, locationId, start, end) == Covers(rows, locationId, start, end)
  {
    var all := rows + extra;
    forall d | d in DatesInRange(all, locationId, start, end)
      ensures d in DatesInRange(rows, locationId, start, end)
    {
      var i :| 0 <= i < |all| && all[i].locationId == locationId && all[i].date == d;
      if i < |rows| { assert rows[i] == all[i]; } else { assert extra[i - |rows|] == all[i]; }
    }
    forall d | d in DatesInRange(rows, locationId, start, end)
      ensures d in DatesInRange(all, locationId, start, end)
    {
      var i :| 0 <= i < |rows| && rows[i].locationId == locationId && rows[i].date == d;
      assert all[i] == rows[i];
    }
    assert DatesInRange(all, locationId, start, end) == DatesInRange(rows, locationId, start, end);
  }

  /** Thirty-one consecutive days stored for a location cover that month. */
  lemma MonthOfRowsCovers(locationId: nat, first: Day)
    ensures Covers(seq(31, i requires 0 <= i < 31 => Row(locationId, first + i, Amount(0.0))),
                   locationId, first, first + 30)
  {
    var rows := seq(31, i requires 0 <= i < 31 => Row(locationId, first + i, Amount(0.0)));
    forall d | first <= d <= first + 30 ensures HasRowOn(rows, locationId, d) {
      assert rows[d - first].date == d;
    }
    CoversIffEveryDay(rows, locationId, first, first + 30);
  }

  /** Dropping every row of the location on one in-range day makes coverage fail. */
  lemma MissingDayBreaksCoverage(rows: seq<Row>, locationId: nat, start: Day, end: Day, day: Day)
    requires start <= day <= end
    requires forall i :: 0 <= i < |rows| && rows[i].locationId == locationId ==> rows[i].date != day
    ensures !Covers(rows, locationId, start, end)
  {
    assert day in ExpectedDates(start, end);
    assert day !in DatesInRange(rows, locationId, start, end);
  }
}
