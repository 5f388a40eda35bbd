/**
 * The second copy of the range splitter, the one the weather service calls.
 * Its loop is the same as TimeRangeTools.SplitTimeRange, and it is proved to
 * return the same chunk list.
 */
module TimeRangeSplitter {
  import opened Dates
  import opened TimeRangeTools

  /** SplitTimeRange (TimeRangeSplitter.cs): same contract as TimeRangeTools.SplitTimeRange. */
  method SplitTimeRange(startDate: Day, endDate: Day, today: Day) returns (chunks: seq<Chunk>)
    ensures chunks == RangeChunks(startDate, endDate, today)
    ensures ChunksBounded(chunks, NormalisedStart(startDate), ClampedEnd(endDate, today))
    ensures ChunksContiguous(chunks, NormalisedStart(startDate))
    ensures chunks == [] <==> ClampedEnd(endDate, today) <= NormalisedStart(startDate)
  {
    var first := YearStart(YearOf(startDate));
    var last := YearEnd(YearOf(endDate));
    if last > today {
      last := today;
    }
    chunks := [];
    var currentStart := first;
    assert ChunksFrom(first, last) == chunks + ChunksFrom(currentStart, last);
    while currentStart < last
      invariant ChunksFrom(first, last) == chunks + ChunksFrom(currentStart, last)
      decreases last as int - currentStart
    {
      var currentEnd := currentStart + MaxDaysPerChunk;
      if currentEnd > last {
        currentEnd := last;
      }
      ChunksFromStep(chunks, currentStart, currentEnd, last);
      chunks := chunks + [Chunk(currentStart, currentEnd)];
      currentStart := currentEnd + 1;
    }
    ChunksFromBounded(first, last);
    ChunksFromContiguous(first, last);
    ChunksFromEmpty(first, last);
  }
}
