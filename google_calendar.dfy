/**
  * The Google Calendar adapter (src/clients/google_calendar.rs): mapping API
  * events to Events, the query window, and the sequential delete loop. The
  * remote service is an oracle: it answers a list request for a window and
  * accepts or refuses each delete request.
  */
module GoogleCalendar {
  import opened Wrappers
  import opened Events
  import opened Config

  // ------------------------------------------------------------ event mapping

  /** The start of an API event: its dateTime, which all-day events do not carry. */
  datatype EventDateTime = EventDateTime(dateTime: Option<Timestamp>)

  /** The fields of an API event the adapter reads. */
  datatype GCalEvent = GCalEvent(id: Option<string>, start: Option<EventDateTime>, summary: Option<string>)

  /** The API event carries a specific start time. */
  predicate HasStartTime(raw: GCalEvent) {
    raw.start.Some? && raw.start.value.dateTime.Some?
  }

  /**
    * build_agenda_event: the id is copied (the program unwraps it, so it must
    * be present), a missing start time becomes the default instant, the epoch,
    * which marks the event all-day, and a missing summary becomes the empty name.
    */
  function BuildAgendaEvent(raw: GCalEvent): (e: Event)
    requires raw.id.Some?
    ensures e.id == raw.id.value
    ensures HasStartTime(raw) ==> e.startTime == raw.start.value.dateTime.value
    ensures !HasStartTime(raw) ==> IsAllDay(e)
    ensures e.name == (if raw.summary.Some? then raw.summary.value else "")
    ensures e.color == DefaultEvent.color
  {
    var start := if HasStartTime(raw) then raw.start.value.dateTime.value else Epoch;
    var summary := if raw.summary.Some? then raw.summary.value else "";
    Build(raw.id.value, start, summary)
  }

  /** Every item of a successful list reply carries an id. */
  predicate ItemsHaveIds(reply: Result<Option<seq<GCalEvent>>>) {
    reply.Ok? && reply.value.Some? ==> forall i :: 0 <= i < |reply.value.value| ==> reply.value.value[i].id.Some?
  }

  /** items.into_iter().map(build_agenda_event).collect(): same length, same order. */
  function MapItems(items: seq<GCalEvent>): (events: seq<Event>)
    requires forall i :: 0 <= i < |items| ==> items[i].id.Some?
    ensures |events| == |items|
    ensures forall i :: 0 <= i < |items| ==> events[i] == BuildAgendaEvent(items[i])
  {
    seq(|items|, i requires 0 <= i < |items| => BuildAgendaEvent(items[i]))
  }

  // ------------------------------------------------------------- query window

  const SecondsPerHour: int := 3600
  const SecondsPerDay: int := 24 * SecondsPerHour

  /** chrono's earliest date, -262143-01-01, as a day number counted from 1970-01-01. */
  const MinDay: int := -96465293
  /** chrono's latest date, +262142-12-31, as a day number counted from 1970-01-01. */
  const MaxDay: int := 95026236

  /** The first and last whole second a chrono DateTime<Utc> can hold. */
  const MinInstant: Timestamp := MinDay * SecondsPerDay
  const MaxInstant: Timestamp := MaxDay * SecondsPerDay + SecondsPerDay - 1

  /** The largest whole number of seconds a chrono Duration holds: i64::MAX milliseconds. */
  const MaxDurationSeconds: int := 9223372036854775

  /** Half-open interval [timeMin, timeMax) of instants that the list request asks for. */
  datatype Window = Window(timeMin: Timestamp, timeMax: Timestamp)

  predicate Representable(t: Timestamp) {
    MinInstant <= t <= MaxInstant
  }

  /** Duration::hours(24 * days) is constructed without panicking. */
  predicate DurationInRange(days: int) {
    -MaxDurationSeconds <= SecondsPerHour * (24 * days) <= MaxDurationSeconds
  }

  /**
    * The window of events: the start date's midnight (UTC) plus 24 * days hours.
    * `date` is the start date as parsed with the format "%Y/%m/%d", as a day
    * number, or None when it did not parse. The end is refused when it falls
    * outside chrono's range, which happens exactly when the day it names does.
    */
  function QueryWindow(date: Option<int>, days: int): (r: Result<Window>)
    requires date.Some? ==> MinDay <= date.value <= MaxDay
    requires date.Some? ==> DurationInRange(days)
    ensures date.None? ==> r == Err(InvalidDate)
    ensures date.Some? ==> (r.Ok? <==> MinDay <= date.value + days <= MaxDay)
    ensures date.Some? && r.Err? ==> r.error == EndTimeOutOfRange
    ensures r.Ok? ==> r.value.timeMin == date.value * SecondsPerDay
                      && r.value.timeMax == r.value.timeMin + days * SecondsPerDay
                      && Representable(r.value.timeMin) && Representable(r.value.timeMax)
  {
    match date
    case None => Err(InvalidDate)
    case Some(day) =>
      var timeMin := day * SecondsPerDay;
      var timeMax := timeMin + SecondsPerHour * (24 * days);
      if Representable(timeMax) then Ok(Window(timeMin, timeMax)) else Err(EndTimeOutOfRange)
  }

  /** A window of whole days starting at midnight: both ends fall on midnights. */
  lemma WindowOnMidnights(day: int, days: int)
    requires MinDay <= day <= MaxDay && DurationInRange(days)
    requires QueryWindow(Some(day), days).Ok?
    ensures var w := QueryWindow(Some(day), days).value;
            w.timeMin % SecondsPerDay == 0 && w.timeMax % SecondsPerDay == 0
            && w.timeMax / SecondsPerDay == day + days
  {
  }

  // ------------------------------------------------------------------ events()

  /**
    * events(): compute the window, ask the service for it, and map the items.
    * `list` is the service's answer to a list request for a window: the items,
    * no item list at all, or a failure.
    */
  function FetchEvents(config: Config, date: Option<int>, list: Window -> Result<Option<seq<GCalEvent>>>)
    : (r: Result<seq<Event>>)
    requires date.Some? ==> MinDay <= date.value <= MaxDay
    requires date.Some? ==> DurationInRange(config.days)
    requires QueryWindow(date, config.days).Ok? ==> ItemsHaveIds(list(QueryWindow(date, config.days).value))
    ensures QueryWindow(date, config.days).Err? ==> r == Err(QueryWindow(date, config.days).error)
    ensures QueryWindow(date, config.days).Ok? ==>
              var reply := list(QueryWindow(date, config.days).value);
              && (reply.Err? ==> r == Err(reply.error))
              && (reply.Ok? && reply.value.None? ==> r == Ok([]))
              && (reply.Ok? && reply.value.Some? ==>
                    r.Ok? && |r.value| == |reply.value.value|
                    && forall i :: 0 <= i < |r.value| ==> r.value[i] == BuildAgendaEvent(reply.value.value[i]))
  {
    var window :- QueryWindow(date, config.days);
    var items :- list(window);
    match items
    case None => Ok([])
    case Some(items) => Ok(MapItems(items))
  }

  // ------------------------------------------------------------ delete_events()

  /**
    * The position of the first id the service refuses to delete, or |ids|
    * when it accepts them all.
    */
  function FirstRejected(ids: seq<string>, rejects: set<string>): (n: nat)
    ensures n <= |ids|
    ensures forall j :: 0 <= j < n ==> ids[j] !in rejects
    ensures n < |ids| ==> ids[n] in rejects
  {
    if ids == [] then 0
    else if ids[0] in rejects then 0
    else 1 + FirstRejected(ids[1..], rejects)
  }

  /** The remote calendar, as far as deletions go. */
  class CalendarHub {
    /** The ids whose delete request the service refuses. */
    const rejects: set<string>
    /** The ids deleted so far, in the order their requests were made. */
    var deleted: seq<string>

    constructor (rejects: set<string>)
      ensures this.rejects == rejects && deleted == []
    {
      this.rejects := rejects;
      deleted := [];
    }

    /** One delete request: either the event is gone, or the service reports a failure for it. */
    method Delete(id: string) returns (r: Result<()>)
      modifies this
      ensures id in rejects ==> r == Err(DeleteFailed(id)) && deleted == old(deleted)
      ensures id !in rejects ==> r == Ok(()) && deleted == old(deleted) + [id]
    {
      if id in rejects {
        r := Err(DeleteFailed(id));
      } else {
        deleted := deleted + [id];
        r := Ok(());
      }
    }
  }

  /** GoogleCalendarClient: the configuration and the service it talks to. */
  class GoogleCalendarClient {
    const config: Config
    const hub: CalendarHub

    constructor (config: Config, hub: CalendarHub)
      ensures this.config == config && this.hub == hub
    {
      this.config := config;
      this.hub := hub;
    }

    /**
      * delete_events: one request per id, in list order, stopping at the first
      * failure and returning it. Deletions made before the failure stay made.
      */
    method DeleteEvents(ids: seq<string>) returns (r: Result<()>)
      modifies hub
      ensures var n := FirstRejected(ids, hub.rejects);
              && hub.deleted == old(hub.deleted) + ids[..n]
              && r == if n == |ids| then Ok(()) else Err(DeleteFailed(ids[n]))
    {
      var n := FirstRejected(ids, hub.rejects);
      for i := 0 to |ids|
        invariant i <= n
        invariant hub.deleted == old(hub.deleted) + ids[..i]
      {
        var outcome := hub.Delete(ids[i]);
        if outcome.Err? {
          return outcome;
        }
        assert ids[..i + 1] == ids[..i] + [ids[i]];
      }
      assert ids[..|ids|] == ids;
      return Ok(());
    }
  }

  /**
    * An event the service returns without a start time is dropped by the
    * all-day rule, whatever its name and id.
    */
  lemma UntimedEventsAreAllDay(raw: GCalEvent)
    requires raw.id.Some? && !HasStartTime(raw)
    ensures IsAllDay(BuildAgendaEvent(raw))
  {
  }

  /**
    * The adapter never fills in a colour, so for fetched events the colour
    * rule drops either every event or none: it depends only on whether the
    * empty colour is in the ignore list.
    */
  lemma FetchedColourIsEmpty(config: Config, date: Option<int>, list: Window -> Result<Option<seq<GCalEvent>>>)
    requires date.Some? ==> MinDay <= date.value <= MaxDay
    requires date.Some? ==> DurationInRange(config.days)
    requires QueryWindow(date, config.days).Ok? ==> ItemsHaveIds(list(QueryWindow(date, config.days).value))
    ensures var fetched := FetchEvents(config, date, list);
            fetched.Ok? ==> forall i :: 0 <= i < |fetched.value| ==> fetched.value[i].color == ""
  {
  }

  /**
    * The failure scenario: three ids where the service refuses the second.
    * The first is deleted, the third is never requested, and the error names the second.
    */
  lemma DeleteStopsAtSecond(a: string, b: string, c: string)
    requires a != b
    ensures FirstRejected([a, b, c], {b}) == 1
    ensures [a, b, c][..FirstRejected([a, b, c], {b})] == [a]
  {
  }
}
