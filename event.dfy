/** The backend-agnostic calendar event (src/event.rs). */
module Events {

  /** Seconds since 1970-01-01T00:00:00Z; the only part of a chrono DateTime the core uses. */
  type Timestamp = int

  /** The Unix epoch: the start time the backend adapter gives an all-day event. */
  const Epoch: Timestamp := 0

  datatype Event = Event(
    id: string,            // backend-assigned identifier, used for deletion
    startTime: Timestamp,  // Epoch for all-day events; there is no separate all-day flag
    name: string,          // the event's summary
    color: string          // the colour tag read by the colour filter
  )

  /** The Default value of an Event: empty strings and the epoch. */
  const DefaultEvent: Event := Event("", Epoch, "", "")

  /** The all-day convention: an event is all-day exactly when it starts at the epoch. */
  predicate IsAllDay(e: Event) {
    e.startTime == Epoch
  }

  /**
    * Event::build: stores its three arguments in the matching fields. The
    * program's Event::build takes no colour, so the colour is left at its
    * default, the empty string.
    */
  function Build(id: string, start: Timestamp, name: string): (e: Event)
    ensures e.id == id && e.startTime == start && e.name == name
    ensures e.color == DefaultEvent.color
    ensures IsAllDay(e) <==> start == Epoch
  {
    Event(id, start, name, "")
  }

  /** A built event differs from the default event only in the fields given to Build. */
  lemma BuildOverDefault(id: string, start: Timestamp, name: string)
    ensures Build(id, start, name) == DefaultEvent.(id := id, startTime := start, name := name)
  {
  }

  /** The default event has an empty id and name and counts as all-day. */
  lemma DefaultEventIsEmptyAllDay()
    ensures DefaultEvent.id == "" && DefaultEvent.name == "" && IsAllDay(DefaultEvent)
  {
  }
}
