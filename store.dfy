/**
 * The store the pipeline reads and writes: a Location table and five
 * observation tables, held in memory as sequences of rows in insertion order.
 */
module Store {
  import opened Wrappers
  import opened Dates
  import opened Models

  class WeatherContext {
    var locations: seq<Location>
    var tables: map<Table, seq<Row>>

    /**
     * Locations are never deleted, so their generated identities are
     * 1, 2, 3, ... in insertion order.
     */
    ghost predicate Valid()
      reads this
    {
      forall i :: 0 <= i < |locations| ==> locations[i].id == i + 1
    }

    /** The rows of one table. */
    function Rows(t: Table): seq<Row>
      reads this
    {
      TableRows(tables, t)
    }

    constructor ()
      ensures Valid()
      ensures locations == [] && tables == map[]
    {
      locations := [];
      tables := map[];
    }
  }

  /** The rows of table t; a table nothing was written to is empty. */
  function TableRows(tables: map<Table, seq<Row>>, t: Table): seq<Row> {
    if t in tables then tables[t] else []
  }

  /** FirstOrDefault over the Location table by name: the first location with that name, if any. */
  function FindLocation(locations: seq<Location>, name: string): (r: Option<Location>)
    ensures r.None? <==> forall i :: 0 <= i < |locations| ==> locations[i].locationName != name
    ensures r.Some? ==> r.value.locationName == name && r.value in locations
    ensures r.Some? ==>
      exists k :: (0 <= k < |locations| && locations[k] == r.value &&
                   forall j :: 0 <= j < k ==> locations[j].locationName != name)
  {
    if locations == [] then None
    else if locations[0].locationName == name then Some(locations[0])
    else
      var r := FindLocation(locations[1..], name);
      assert r.Some? ==>
        exists k :: (1 <= k < |locations| && locations[k] == r.value &&
                     forall j :: 1 <= j < k ==> locations[j].locationName != name);
      r
  }

  /** Appending a location leaves the lookup of every name it already resolves unchanged. */
  lemma {:induction false} FindLocationAppend(locations: seq<Location>, extra: Location, name: string)
    ensures FindLocation(locations + [extra], name) ==
      if FindLocation(locations, name).Some? then FindLocation(locations, name)
      else if extra.locationName == name then Some(extra) else None
  {
    if locations != [] {
      assert (locations + [extra])[1..] == locations[1..] + [extra];
      FindLocationAppend(locations[1..], extra, name);
    }
  }

  /** The distinct dates stored for a location in one table (`Where(LocationId).Select(Date)`). */
  function DatesOf(rows: seq<Row>, locationId: nat): (dates: set<Day>)
    ensures forall d :: d in dates <==> exists i :: 0 <= i < |rows| && rows[i].locationId == locationId && rows[i].date == d
  {
    set i | 0 <= i < |rows| && rows[i].locationId == locationId :: rows[i].date
  }

  /** The distinct dates stored for a location within the inclusive range [start, end]. */
  function DatesInRange(rows: seq<Row>, locationId: nat, start: Day, end: Day): (dates: set<Day>)
    ensures forall d :: d in dates <==> start <= d <= end && d in DatesOf(rows, locationId)
  {
    set d | d in DatesOf(rows, locationId) && start <= d <= end
  }

  /**
   * The rows of a location dated within [start, end]: every matching row as
   * often as the table holds it, and no other row.
   */
  function RowsInRange(rows: seq<Row>, locationId: nat, start: Day, end: Day): (r: seq<Row>)
    ensures |r| <= |rows|
    ensures forall x :: x in r <==> x in rows && x.locationId == locationId && start <= x.date <= end
    ensures forall x :: multiset(r)[x] ==
                        (if x.locationId == locationId && start <= x.date <= end then multiset(rows)[x] else 0)
  {
    if rows == [] then []
    else
      var rest := RowsInRange(rows[1..], locationId, start, end);
      assert forall x :: x in rows <==> x == rows[0] || x in rows[1..];
      assert rows == [rows[0]] + rows[1..];
      if rows[0].locationId == locationId && start <= rows[0].date <= end then [rows[0]] + rest else rest
  }

  /** Rows of other locations never change a location's dates. */
  lemma OtherLocationsKeepDates(rows: seq<Row>, others: seq<Row>, locationId: nat)
    requires forall i :: 0 <= i < |others| ==> others[i].locationId != locationId
    ensures DatesOf(rows + others, locationId) == DatesOf(rows, locationId)
  {
    var all := rows + others;
    forall d | d in DatesOf(all, locationId) ensures d in DatesOf(rows, locationId) {
      var i :| 0 <= i < |all| && all[i].locationId == locationId && all[i].date == d;
      assert i < |rows|;
      assert rows[i] == all[i];
    }
    forall d | d in DatesOf(rows, locationId) ensures d in DatesOf(all, locationId) {
      var i :| 0 <= i < |rows| && rows[i].locationId == locationId && rows[i].date == d;
      assert all[i] == rows[i];
    }
  }

  /** Appending rows of a location adds exactly their dates to that location's dates. */
  lemma AppendedDates(rows: seq<Row>, added: seq<Row>, locationId: nat)
    requires forall i :: 0 <= i < |added| ==> added[i].locationId == locationId
    ensures DatesOf(rows + added, locationId) ==
      DatesOf(rows, locationId) + set i | 0 <= i < |added| :: added[i].date
  {
    var all := rows + added;
    forall d | d in DatesOf(all, locationId)
      ensures d in DatesOf(rows, locationId) || exists i :: 0 <= i < |added| && added[i].date == d
    {
      var i :| 0 <= i < |all| && all[i].locationId == locationId && all[i].date == d;
      if i < |rows| { assert rows[i] == all[i]; } else { assert added[i - |rows|] == all[i]; }
    }
    forall d | d in DatesOf(rows, locationId) ensures d in DatesOf(all, locationId) {
      var i :| 0 <= i < |rows| && rows[i].locationId == locationId && rows[i].date == d;
      assert all[i] == rows[i];
    }
    forall i | 0 <= i < |added| ensures added[i].date in DatesOf(all, locationId) {
      assert all[|rows| + i] == added[i];
    }
  }
}
