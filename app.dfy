/**
 * The decision logic of the calendar screen (src/App.tsx): which events the
 * admin's month grid and day view show for a day, where the day view places
 * an event on its 24-hour timeline, and how `loadEvents` gates the sync on the
 * role and maps the loaded rows.
 *
 * Instants are local wall-clock times in milliseconds, the values
 * `parseISO(start_time)` and `parseISO(end_time)` denote; every day is
 * 86,400,000 ms long. Pixel offsets are exact reals.
 */
module App {
  import opened JsValues
  import opened Store
  import opened GoogleCalendar

  const MinuteMs := 60 * 1000
  const HourMs := 60 * MinuteMs
  const DayMs := 24 * HourMs
  /** The height of one hour slot of the timeline (`h-16`), in pixels. */
  const SlotHeight := 64.0
  const LoadFailedMessage := "Failed to load events. Please try refreshing the page."

  /** An event as the screen holds it. */
  datatype CalendarEvent = CalendarEvent(id: string, title: string, start: int, end: int, email: string, userName: Option<string>)

  // ---------------------------------------------------------------------------
  // Days

  /** `startOfDay(t)`: midnight of the day of `t`. */
  function StartOfDay(t: int): (r: int)
    ensures r <= t < r + DayMs && r % DayMs == 0
  {
    t - t % DayMs
  }

  /** `endOfDay(t)`: the last millisecond of the day of `t`. */
  function EndOfDay(t: int): int {
    StartOfDay(t) + DayMs - 1
  }

  /** `isSameDay(a, b)` */
  predicate SameDay(a: int, b: int) {
    StartOfDay(a) == StartOfDay(b)
  }

  /** The day view's test: `isWithinInterval(start, { start: startOfDay(date), end: endOfDay(date) })`. */
  function StartsWithin(date: int): CalendarEvent -> bool {
    (e: CalendarEvent) => StartOfDay(date) <= e.start <= EndOfDay(date)
  }

  /** `getEventsForDay`'s test: `isSameDay(parseISO(event.start_time), date)`. */
  function StartsOn(date: int): CalendarEvent -> bool {
    (e: CalendarEvent) => SameDay(e.start, date)
  }

  /** The events the day view lays out for `date` (`dayEvents`). */
  function DayEvents(events: seq<CalendarEvent>, date: int): (r: seq<CalendarEvent>)
    ensures |r| <= |events|
    ensures forall i :: 0 <= i < |r| ==> StartOfDay(date) <= r[i].start <= EndOfDay(date)
  {
    Filter(events, StartsWithin(date))
  }

  /** `getEventsForDay(date)` in the month grid. */
  function EventsForDay(events: seq<CalendarEvent>, date: int): (r: seq<CalendarEvent>)
    ensures |r| <= |events|
    ensures forall i :: 0 <= i < |r| ==> SameDay(r[i].start, date)
  {
    Filter(events, StartsOn(date))
  }

  /** An instant lies between the bounds of a day exactly when it is on that day. */
  lemma WithinDayIffSameDay(x: int, date: int)
    ensures StartOfDay(date) <= x <= EndOfDay(date) <==> SameDay(x, date)
  {
    var s := StartOfDay(date);
    if s <= x <= EndOfDay(date) {
      assert x == s + (x - s) && 0 <= x - s < DayMs;
      assert x % DayMs == x - s;
    }
  }

  /**
   * The day view keeps an event exactly when its start lies within the day;
   * its end is not consulted.
   */
  lemma DayViewKeeps(events: seq<CalendarEvent>, date: int, e: CalendarEvent)
    ensures e in DayEvents(events, date) <==> e in events && StartOfDay(date) <= e.start <= EndOfDay(date)
  {
    FilterMembership(events, StartsWithin(date), e);
  }

  /** The day view and the month grid select the same events for a day. */
  lemma DayViewMatchesGrid(events: seq<CalendarEvent>, date: int)
    ensures DayEvents(events, date) == EventsForDay(events, date)
  {
    forall i | 0 <= i < |events|
      ensures StartsWithin(date)(events[i]) == StartsOn(date)(events[i])
    {
      WithinDayIffSameDay(events[i].start, date);
    }
    FilterAgree(events, StartsWithin(date), StartsOn(date));
  }

  // ---------------------------------------------------------------------------
  // Month grid: badge and selection

  /** The word after the count on a day's badge: `event{dayEvents.length !== 1 ? 's' : ''}`. */
  function BadgeNoun(count: nat): (noun: string)
    ensures noun == "event" <==> count == 1
    ensures noun == "events" <==> count != 1
  {
    if count != 1 then "events" else "event"
  }

  /** A day button reacts to a click only when it has events (`hasEvents && setSelectedDate(day)`). */
  predicate Selectable(events: seq<CalendarEvent>, day: int) {
    |EventsForDay(events, day)| > 0
  }

  /** The selected date after a click on `day`. */
  function ClickDay(selected: Option<int>, events: seq<CalendarEvent>, day: int): (r: Option<int>)
    ensures |EventsForDay(events, day)| > 0 ==> r == Some(day)
    ensures |EventsForDay(events, day)| == 0 ==> r == selected
  {
    if Selectable(events, day) then Some(day) else selected
  }

  /**
   * A click selects the day exactly when the day has events, and the day view
   * it opens then lays out at least one event.
   */
  lemma ClickOpensNonEmptyDay(selected: Option<int>, events: seq<CalendarEvent>, day: int)
    ensures ClickDay(selected, events, day) == Some(day) <==> Selectable(events, day) || selected == Some(day)
    ensures ClickDay(selected, events, day) != selected ==> |DayEvents(events, day)| > 0
  {
    DayViewMatchesGrid(events, day);
  }

  // ---------------------------------------------------------------------------
  // Day view layout

  /** `start.getHours()` */
  function HourOf(t: int): int {
    (t % DayMs) / HourMs
  }

  /** `start.getMinutes()` */
  function MinuteOf(t: int): int {
    (t % HourMs) / MinuteMs
  }

  /** The whole minutes since midnight. */
  function MinuteOfDay(t: int): (m: int)
    ensures 0 <= m < 24 * 60
  {
    (t % DayMs) / MinuteMs
  }

  /** `top`: `(start.getHours() + start.getMinutes() / 60) * 64` pixels. */
  function Top(start: int): (r: real)
    ensures 0.0 <= r < 24.0 * SlotHeight
  {
    (HourOf(start) as real + MinuteOf(start) as real / 60.0) * SlotHeight
  }

  /** `height`: `(end.getTime() - start.getTime()) / (1000 * 60 * 60) * 64` pixels. */
  function Height(start: int, end: int): (r: real)
    ensures r > 0.0 <==> start < end
    ensures r == 0.0 <==> start == end
  {
    (end - start) as real / (1000.0 * 60.0 * 60.0) * SlotHeight
  }

  lemma HoursAndMinutes(t: int)
    ensures HourOf(t) * 60 + MinuteOf(t) == MinuteOfDay(t)
  {
    var q, m := t / DayMs, t % DayMs;
    var h, r := m / HourMs, m % HourMs;
    HourParts(t, q * 24 + h, r);
    MinuteParts(m, h * 60 + r / MinuteMs, r % MinuteMs);
  }

  /**
   * An event's offset is its start's minute of the day, at 64 pixels an hour:
   * seconds and milliseconds are ignored.
   */
  lemma TopIsMinuteOfDay(start: int)
    ensures Top(start) == MinuteOfDay(start) as real * SlotHeight / 60.0
    ensures 0.0 <= Top(start) < 24.0 * SlotHeight
  {
    HoursAndMinutes(start);
  }

  lemma DayParts(t: int, q: int, r: int)
    requires t == q * DayMs + r && 0 <= r < DayMs
    ensures t % DayMs == r && t / DayMs == q
  {
  }

  lemma HourParts(t: int, q: int, r: int)
    requires t == q * HourMs + r && 0 <= r < HourMs
    ensures t % HourMs == r && t / HourMs == q
  {
  }

  lemma MinuteParts(t: int, q: int, r: int)
    requires t == q * MinuteMs + r && 0 <= r < MinuteMs
    ensures t % MinuteMs == r && t / MinuteMs == q
  {
  }

  /** On a whole minute, the time since midnight is a whole number of minutes. */
  lemma WholeMinuteOfDay(t: int)
    requires t % MinuteMs == 0
    ensures t % DayMs == MinuteOfDay(t) * MinuteMs
  {
    var q, m := t / DayMs, t % DayMs;
    var k := t / MinuteMs;
    assert m == (k - q * 1440) * MinuteMs;
    MinuteParts(m, k - q * 1440, 0);
  }

  /** Two instants in the same minute get the same offset. */
  lemma TopIgnoresSeconds(start: int, seconds: int)
    requires start % MinuteMs == 0 && 0 <= seconds < MinuteMs
    ensures Top(start + seconds) == Top(start)
  {
    assert MinuteOfDay(start + seconds) == MinuteOfDay(start) by {
      WholeMinuteOfDay(start);
      var q, j := start / DayMs, MinuteOfDay(start);
      DayParts(start + seconds, q, j * MinuteMs + seconds);
      MinuteParts(j * MinuteMs + seconds, j, seconds);
    }
    TopIsMinuteOfDay(start);
    TopIsMinuteOfDay(start + seconds);
  }

  /**
   * For instants on whole minutes of the same day, an event's box ends exactly
   * where a box starting at its end begins.
   */
  lemma BoxesMeet(start: int, end: int)
    requires SameDay(start, end) && start % MinuteMs == 0 && end % MinuteMs == 0
    ensures Top(start) + Height(start, end) == Top(end)
  {
    TopIsMinuteOfDay(start);
    TopIsMinuteOfDay(end);
    WholeMinuteOfDay(start);
    WholeMinuteOfDay(end);
    assert end - start == (MinuteOfDay(end) - MinuteOfDay(start)) * MinuteMs;
  }

  /** A 09:00 to 10:30 event is placed at 576 pixels and is 96 pixels tall. */
  lemma NineToHalfPastTen(midnight: int)
    requires midnight % DayMs == 0
    ensures Top(midnight + 9 * HourMs) == 576.0
    ensures Height(midnight + 9 * HourMs, midnight + 10 * HourMs + 30 * MinuteMs) == 96.0
  {
    DayParts(midnight + 9 * HourMs, midnight / DayMs, 9 * HourMs);
    HourParts(midnight + 9 * HourMs, midnight / DayMs * 24 + 9, 0);
  }

  // ---------------------------------------------------------------------------
  // loadEvents

  /**
   * A row of the `calendar_events` query. `joinedName` is `event.users?.name`:
   * absent when the query has no join (the user's query) or the name is null.
   */
  datatype QueryRow = QueryRow(id: string, title: string, start: int, end: int, email: string, joinedName: Option<string>)

  /** How the query settled: an error, or data that may be null. */
  datatype QueryResult = QueryOk(data: Option<seq<QueryRow>>) | QueryFailed

  /** `{ ...event, user_name: event.users?.name || null }` */
  function ToEvent(row: QueryRow): (e: CalendarEvent)
    ensures e.id == row.id && e.title == row.title && e.start == row.start && e.end == row.end && e.email == row.email
    ensures e.userName.Some? <==> Truthy(row.joinedName)
    ensures e.userName.Some? ==> e.userName == row.joinedName
  {
    CalendarEvent(row.id, row.title, row.start, row.end, row.email, if Truthy(row.joinedName) then row.joinedName else None)
  }

  /** `data?.map(...) || []` */
  function ProcessRows(data: Option<seq<QueryRow>>): (events: seq<CalendarEvent>)
    ensures data.None? ==> events == []
    ensures data.Some? ==> |events| == |data.value|
    ensures data.Some? ==> forall i :: 0 <= i < |events| ==>
              && events[i].id == data.value[i].id && events[i].title == data.value[i].title
              && events[i].start == data.value[i].start && events[i].end == data.value[i].end
              && events[i].email == data.value[i].email
              && (events[i].userName.Some? <==> Truthy(data.value[i].joinedName))
              && (events[i].userName.Some? ==> events[i].userName == data.value[i].joinedName)
  {
    if data.None? then [] else seq(|data.value|, i requires 0 <= i < |data.value| => ToEvent(data.value[i]))
  }

  /** The state `CalendarScreen` keeps: the loaded events, the spinner and the error banner. */
  class CalendarScreen {
    var events: seq<CalendarEvent>
    var loading: bool
    var error: Option<string>

    constructor ()
      ensures events == [] && !loading && error.None?
    {
      events := [];
      loading := false;
      error := None;
    }

    /**
     * `loadEvents`: a user first syncs their own events; then the events are
     * queried. Any failure leaves the events as they were and shows one message.
     */
    method LoadEvents(db: Database, role: Role, env: SyncEnv, query: QueryResult)
      modifies this, db
      ensures !loading
      ensures role == Admin ==> db.Snapshot() == old(db.Snapshot())
      ensures role == User ==> db.Snapshot() == Sync(old(db.Snapshot()), env).tables
      ensures (role == Admin || Sync(old(db.Snapshot()), env).outcome.Resolved?) && query.QueryOk? ==>
                events == ProcessRows(query.data) && error == None
      ensures !((role == Admin || Sync(old(db.Snapshot()), env).outcome.Resolved?) && query.QueryOk?) ==>
                events == old(events) && error == Some(LoadFailedMessage)
    {
      loading := true;
      error := None;
      if role == User {
        var calls, outcome := FetchAndStoreEvents(db, env);
        if outcome.Rejected? {
          error := Some(LoadFailedMessage);
          loading := false;
          return;
        }
      }
      if query.QueryFailed? {
        error := Some(LoadFailedMessage);
        loading := false;
        return;
      }
      events := ProcessRows(query.data);
      loading := false;
    }
  }
}
