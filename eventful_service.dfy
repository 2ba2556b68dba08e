/**
 * `EventfulService`: the watch-face service that owns the latest calendar
 * entry and the remembered READ_CALENDAR grant. Each host answer is an input:
 * `granted` is what the permission check returns at that moment, and the
 * cursor and clock readings are what the calendar query sees.
 */
module EventfulService {
  import opened Wrappers
  import opened CalendarUtils

  class EventfulService {
    var calendarEntry: Option<CalendarEntry>
    var hasPermission: bool

    constructor ()
      ensures calendarEntry == None && !hasPermission
    {
      calendarEntry := None;
      hasPermission := false;
    }

    /** Remembers the current grant status; the entry is left alone. */
    method CheckForPermission(granted: bool)
      modifies this
      ensures hasPermission == granted
      ensures calendarEntry == old(calendarEntry)
    {
      hasPermission := granted;
    }

    /**
     * One timer tick. With the grant already remembered, the entry is replaced
     * by a fresh query (null included) and the grant stays; without it, the
     * entry is kept and only the grant is re-read, so a grant seen now leads to
     * a fetch on the next tick, not this one.
     */
    method UpdateCalendarEntry(granted: bool, cursor: Option<seq<Row>>, clock: seq<int>)
      requires cursor.Some? ==> |clock| == |cursor.value|
      modifies this
      ensures old(hasPermission) ==> hasPermission && calendarEntry == FirstEvent(cursor, clock)
      ensures !old(hasPermission) ==> hasPermission == granted && calendarEntry == old(calendarEntry)
    {
      if hasPermission {
        calendarEntry := GetFirstEvent(cursor, clock);
      } else {
        CheckForPermission(granted);
      }
    }

    /**
     * The state part of `createWatchFace`: the grant is checked before the
     * first update, so a grant present at creation is fetched at once. The
     * check and the update each ask the host, hence two grant inputs.
     */
    method CreateWatchFace(grantedAtCheck: bool, grantedAtUpdate: bool, cursor: Option<seq<Row>>, clock: seq<int>)
      requires cursor.Some? ==> |clock| == |cursor.value|
      modifies this
      ensures grantedAtCheck ==> hasPermission && calendarEntry == FirstEvent(cursor, clock)
      ensures !grantedAtCheck ==> hasPermission == grantedAtUpdate && calendarEntry == old(calendarEntry)
    {
      CheckForPermission(grantedAtCheck);
      UpdateCalendarEntry(grantedAtUpdate, cursor, clock);
    }
  }
}
