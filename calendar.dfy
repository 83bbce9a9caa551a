/** The calendar store: weekday names in display order, the visible month
    and the "ghost" event shown while a new event is being placed. */
module Calendar {
  import opened Common
  import opened Events

  const STARTS_WITH_SUNDAY: bool := false
  const DAY_NAMES: seq<string> := ["SUN", "MON", "TUE", "WED", "THU", "FRI", "SAT"]
  const GHOST_EVENT_DURATION_MS: int := 3_600_000
  const GHOST_EVENT_TITLE: string := "New Event"

  /** A `TimeEvent & { x, y }`: the draft event and where it is drawn. */
  datatype GhostEvent = GhostEvent(event: TimeEvent, x: int, y: int)

  /** `s.slice(1).concat(s[0])`: the first element moved to the end. */
  function RotateLeft<T>(s: seq<T>): (r: seq<T>)
    requires |s| > 0
    ensures |r| == |s| && multiset(r) == multiset(s)
    ensures forall i :: 0 <= i < |s| - 1 ==> r[i] == s[i + 1]
    ensures r[|s| - 1] == s[0]
  {
    assert s == [s[0]] + s[1..];
    s[1..] + [s[0]]
  }

  /** `getDayNamesInOrder`: the names as stored when the week starts on
      Sunday, otherwise rotated left by one so that Sunday comes last. */
  function DayNamesInOrder(startsWithSunday: bool): (r: seq<string>)
    ensures |r| == |DAY_NAMES| && multiset(r) == multiset(DAY_NAMES)
    ensures startsWithSunday ==> r == DAY_NAMES
    ensures !startsWithSunday ==> r[|r| - 1] == DAY_NAMES[0]
    ensures !startsWithSunday ==> forall i :: 0 <= i < |r| - 1 ==> r[i] == DAY_NAMES[i + 1]
  {
    if startsWithSunday then DAY_NAMES else RotateLeft(DAY_NAMES)
  }

  /** `getDayName`: the name at a `getDay()` index; any other index reads
      past the array and gives `undefined` (None). */
  function GetDayName(day: int): (r: Option<string>)
    ensures r.Some? <==> 0 <= day < |DAY_NAMES|
    ensures r.Some? ==> r.value == DAY_NAMES[day]
  {
    if 0 <= day < |DAY_NAMES| then Some(DAY_NAMES[day]) else None
  }

  /** With the store's constant setting, the header reads Monday to Sunday. */
  lemma HeaderStartsOnMonday()
    ensures DayNamesInOrder(STARTS_WITH_SUNDAY) == ["MON", "TUE", "WED", "THU", "FRI", "SAT", "SUN"]
  {
  }

  /** The weekday after day i, as a `getDay()` index. */
  lemma NextDayIndex(i: int)
    requires 0 <= i < 7
    ensures (i + 1) % 7 == if i < 6 then i + 1 else 0
  {
  }

  /** Column i of the header names the weekday whose `getDay()` index is
      (i + 1) mod 7. */
  lemma HeaderColumnNamesDay(i: int)
    requires 0 <= i < 7
    ensures GetDayName((i + 1) % 7) == Some(DayNamesInOrder(STARTS_WITH_SUNDAY)[i])
  {
    NextDayIndex(i);
    var header := DayNamesInOrder(STARTS_WITH_SUNDAY);
    var k := if i < 6 then i + 1 else 0;
    assert header[i] == DAY_NAMES[k];
  }

  /** The ghost event `createGhostEvent` builds: one hour long from the
      given start, titled 'New Event', with an empty description. */
  function NewGhostEvent(id: string, start: Date, x: int, y: int): (g: GhostEvent)
    ensures g.event.id == id && g.event.title == GHOST_EVENT_TITLE && g.event.description == ""
    ensures g.event.start == start && g.x == x && g.y == y
    ensures g.event.end.At? ==> start.At? && g.event.end.ms - start.ms == GHOST_EVENT_DURATION_MS
    ensures start.At? && -MAX_TIME_MS <= start.ms + GHOST_EVENT_DURATION_MS <= MAX_TIME_MS ==>
      g.event.end == At(start.ms + GHOST_EVENT_DURATION_MS)
  {
    GhostEvent(TimeEvent(id, GHOST_EVENT_TITLE, "", start, AddMillis(start, GHOST_EVENT_DURATION_MS)), x, y)
  }

  class CalendarStore {
    var timeNotation: string
    var timeZone: string
    const today: Date
    var visibleMonth: Date
    var lastFocusedDate: Option<Date>
    var ghostEvent: Option<GhostEvent>

    /** Setting the store up at time `now`. */
    constructor (now: int)
      ensures timeNotation == "12h" && timeZone == "UTC"
      ensures today == At(now) && visibleMonth == At(now)
      ensures lastFocusedDate == None && ghostEvent == None
    {
      timeNotation := "12h";
      timeZone := "UTC";
      today := At(now);
      visibleMonth := At(now);
      lastFocusedDate := None;
      ghostEvent := None;
    }

    method SetVisibleMonth(month: Date)
      modifies this
      ensures visibleMonth == month
      ensures timeNotation == old(timeNotation) && timeZone == old(timeZone)
      ensures lastFocusedDate == old(lastFocusedDate) && ghostEvent == old(ghostEvent)
    {
      visibleMonth := month;
    }

    /** `createGhostEvent`; the id (drawn at random by the store) and the
        start (the current time when omitted) come from the caller. */
    method CreateGhostEvent(id: string, startingDate: Date, x: int := 0, y: int := 0)
      modifies this
      ensures ghostEvent == Some(NewGhostEvent(id, startingDate, x, y))
      ensures timeNotation == old(timeNotation) && timeZone == old(timeZone)
      ensures visibleMonth == old(visibleMonth) && lastFocusedDate == old(lastFocusedDate)
    {
      var endDate := AddMillis(startingDate, GHOST_EVENT_DURATION_MS);
      ghostEvent := Some(GhostEvent(TimeEvent(id, GHOST_EVENT_TITLE, "", startingDate, endDate), x, y));
    }

    method DestroyGhostEvent()
      modifies this
      ensures ghostEvent == None
      ensures timeNotation == old(timeNotation) && timeZone == old(timeZone)
      ensures visibleMonth == old(visibleMonth) && lastFocusedDate == old(lastFocusedDate)
    {
      ghostEvent := None;
    }
  }
}
