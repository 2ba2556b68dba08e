/**
 * The calendar query helper: `CalendarUtils.getFirstEvent`. The provider query
 * is a host call, so the cursor it returns is an input here: `None` is a null
 * cursor, `Some(rows)` the rows it yields in order, each row being its BEGIN
 * instant in epoch milliseconds and its TITLE. The helper reads the clock once
 * more for every row, so `clock[i]` is the reading taken while row `i` is
 * examined. Nothing is assumed about how the readings relate to each other.
 */
module CalendarUtils {
  import opened Wrappers
  import Sorting

  /** A provider row as projected by the query: (BEGIN millis, TITLE). */
  type Row = (int, string)

  /** `CalendarEntry(startTime, title)`; the `Calendar` start time is kept as its epoch millis. */
  datatype CalendarEntry = CalendarEntry(startTime: int, title: string)

  /** The look-ahead of the instance query: one day. */
  const DayMillis: int := 1000 * 60 * 60 * 24

  /** The `[startMillis, endMillis]` pair appended to the instances URI. */
  function QueryWindow(startMillis: int): (w: (int, int))
    ensures w.0 == startMillis && w.1 - w.0 == 86_400_000
  {
    (startMillis, startMillis + DayMillis)
  }

  /** The sort key `sortBy { i -> i.startTime }`. */
  function StartTime(e: CalendarEntry): int
  {
    e.startTime
  }

  function EntryOf(row: Row): CalendarEntry
  {
    CalendarEntry(row.0, row.1)
  }

  /** Row `i` survives the `beginVal < now` skip: its begin is not before its clock reading. */
  predicate Qualifies(rows: seq<Row>, clock: seq<int>, i: int)
    requires |clock| == |rows|
    requires 0 <= i < |rows|
  {
    rows[i].0 >= clock[i]
  }

  /**
   * The positions, among the first `n` rows, of the rows that survive the skip:
   * increasing, each one qualifying, and none missing.
   */
  ghost function KeptIndices(rows: seq<Row>, clock: seq<int>, n: nat): (idx: seq<nat>)
    requires |clock| == |rows| && n <= |rows|
    ensures forall k :: 0 <= k < |idx| ==> idx[k] < n && Qualifies(rows, clock, idx[k])
    ensures forall a, b :: 0 <= a < b < |idx| ==> idx[a] < idx[b]
    ensures forall j :: 0 <= j < n && Qualifies(rows, clock, j) ==> j in idx
  {
    if n == 0 then []
    else KeptIndices(rows, clock, n - 1) + (if Qualifies(rows, clock, n - 1) then [n - 1] else [])
  }

  /** The entry list after the cursor loop has examined the first `n` rows. */
  function Kept(rows: seq<Row>, clock: seq<int>, n: nat): seq<CalendarEntry>
    requires |clock| == |rows| && n <= |rows|
  {
    if n == 0 then []
    else Kept(rows, clock, n - 1) + (if Qualifies(rows, clock, n - 1) then [EntryOf(rows[n - 1])] else [])
  }

  /** The loop appends exactly the qualifying rows, in cursor order, begin and title unchanged. */
  lemma {:induction false} KeptAreQualifyingRows(rows: seq<Row>, clock: seq<int>, n: nat)
    requires |clock| == |rows| && n <= |rows|
    ensures |Kept(rows, clock, n)| == |KeptIndices(rows, clock, n)|
    ensures forall k :: 0 <= k < |Kept(rows, clock, n)| ==>
              Kept(rows, clock, n)[k] == EntryOf(rows[KeptIndices(rows, clock, n)[k]])
  {
    if n > 0 {
      KeptAreQualifyingRows(rows, clock, n - 1);
    }
  }

  /** What `getFirstEvent` returns: null for a null cursor, else the head of the sorted entries, or null if there are none. */
  function FirstEvent(cursor: Option<seq<Row>>, clock: seq<int>): Option<CalendarEntry>
    requires cursor.Some? ==> |clock| == |cursor.value|
  {
    match cursor
    case None => None
    case Some(rows) =>
      var sorted := Sorting.SortBy(Kept(rows, clock, |rows|), StartTime);
      if sorted == [] then None else Some(sorted[0])
  }

  /**
   * Row `i` is the one to report: it qualifies, no qualifying row begins
   * earlier, and every qualifying row before it in the cursor begins later.
   */
  ghost predicate IsFirstEvent(rows: seq<Row>, clock: seq<int>, i: int)
    requires |clock| == |rows|
  {
    && 0 <= i < |rows|
    && Qualifies(rows, clock, i)
    && (forall j :: 0 <= j < |rows| && Qualifies(rows, clock, j) ==> rows[i].0 <= rows[j].0)
    && (forall j :: 0 <= j < i && Qualifies(rows, clock, j) ==> rows[i].0 < rows[j].0)
  }

  /** At most one row is the first event, so the description above fixes the result. */
  lemma IsFirstEventUnique(rows: seq<Row>, clock: seq<int>, i: int, j: int)
    requires |clock| == |rows|
    requires IsFirstEvent(rows, clock, i) && IsFirstEvent(rows, clock, j)
    ensures i == j
  {
  }

  /** The result is null exactly when the cursor is null or no row begins at or after its clock reading. */
  lemma FirstEventNoneIff(cursor: Option<seq<Row>>, clock: seq<int>)
    requires cursor.Some? ==> |clock| == |cursor.value|
    ensures FirstEvent(cursor, clock).None?
        <==> cursor.None? || forall i :: 0 <= i < |cursor.value| ==> cursor.value[i].0 < clock[i]
  {
    if cursor.Some? {
      var rows := cursor.value;
      var n := |rows|;
      KeptAreQualifyingRows(rows, clock, n);
      if exists i :: 0 <= i < n && rows[i].0 >= clock[i] {
        var i :| 0 <= i < n && rows[i].0 >= clock[i];
        assert Qualifies(rows, clock, i);
        assert i in KeptIndices(rows, clock, n);
      }
    }
  }

  /**
   * A non-null result is taken from one row: the row that qualifies with the
   * smallest begin, the earliest such row in cursor order when several tie.
   */
  lemma FirstEventIsEarliest(rows: seq<Row>, clock: seq<int>)
    requires |clock| == |rows|
    requires FirstEvent(Some(rows), clock).Some?
    ensures exists i :: IsFirstEvent(rows, clock, i) && FirstEvent(Some(rows), clock).value == EntryOf(rows[i])
  {
    var n := |rows|;
    var entries := Kept(rows, clock, n);
    var idx := KeptIndices(rows, clock, n);
    KeptAreQualifyingRows(rows, clock, n);
    Sorting.SortByHead(entries, StartTime);
    var m := Sorting.FirstMinIndex(entries, StartTime);
    var i := idx[m];
    forall j | 0 <= j < n && Qualifies(rows, clock, j)
      ensures rows[i].0 <= rows[j].0
      ensures j < i ==> rows[i].0 < rows[j].0
    {
      var k :| 0 <= k < |idx| && idx[k] == j;
      assert StartTime(entries[k]) == rows[j].0;
      if j < i {
        assert k < m;
      }
    }
    assert IsFirstEvent(rows, clock, i);
  }

  /**
   * `getFirstEvent` on the cursor the provider returned: the `while
   * (it.moveToNext())` loop collects the rows that are not in the past, the
   * list is stable-sorted by start time, and its head (or null) is returned.
   */
  method GetFirstEvent(cursor: Option<seq<Row>>, clock: seq<int>) returns (r: Option<CalendarEntry>)
    requires cursor.Some? ==> |clock| == |cursor.value|
    ensures r == FirstEvent(cursor, clock)
  {
    if cursor.None? {
      return None;
    }
    var rows := cursor.value;
    var entries: seq<CalendarEntry> := [];
    var i := 0;
    while i < |rows|
      invariant 0 <= i <= |rows|
      invariant entries == Kept(rows, clock, i)
    {
      var (beginVal, title) := rows[i];
      i := i + 1;
      if beginVal < clock[i - 1] {
        continue;
      }
      entries := entries + [CalendarEntry(beginVal, title)];
    }
    entries := Sorting.SortBy(entries, StartTime);
    if |entries| == 0 {
      return None;
    }
    return Some(entries[0]);
  }

  /** Events ten minutes ahead ("A") and five minutes past ("C"): only "A" comes back. */
  lemma PastEventSkipped(now: int)
    ensures FirstEvent(Some([(now + 600_000, "A"), (now - 300_000, "C")]), [now, now])
         == Some(CalendarEntry(now + 600_000, "A"))
  {
    var rows: seq<Row> := [(now + 600_000, "A"), (now - 300_000, "C")];
    assert Kept(rows, [now, now], 1) == [CalendarEntry(now + 600_000, "A")];
    assert !Qualifies(rows, [now, now], 1);
  }
}
