# calendar-tidy: the event-filtering pipeline, in Dafny

calendar-tidy fetches the events of a window of days from a Google calendar,
drops the ones an exclusion rule catches (all-day events, events whose colour
is on an ignore list, events whose name matches an ignored pattern), shows the
rest, and deletes them after an explicit "yes". This project models that core
and proves what it promises:

- `Events` (event.dfy): the backend-agnostic `Event` record and `Event::build`.
  All-day events carry the Unix epoch as their start time.
- `Config` (config.dfy): the configuration value the filters read. A compiled
  regex is its source text plus a matcher (`Regex::is_match`), a total
  function from names to booleans.
- `Filters` (filters.dfy): the `Filter` trait and its three implementations
  as one closed datatype, `Exclude`, the three `build` functions and
  `default_filters`, with the unit tests of each filter as lemmas.
- `Pipeline` (pipeline.dfy): the filter chain of `main`. It keeps an event
  when no filter excludes it, in the original order. Proved: the kept list is
  the unique order-preserving sublist that keeps every copy of every event no
  filter excludes; filtering is idempotent; it is monotone (removing a filter
  only grows the kept list); the filter order does not matter; and the default
  set's verdict is "all-day, or ignored colour, or some pattern matches", read
  from the two ignore lists only.
- `GoogleCalendar` (google_calendar.dfy): mapping API events to `Event`s,
  the query window with chrono's range check, `events()`, and `delete_events`
  as a loop over a `CalendarHub` that accepts or refuses each delete.
- `Tidy` (main.dfy): the deletion gate and one whole run. The run stops with
  status 0 when nothing is kept. Deletion needs an explicit yes. Then it
  deletes the kept ids in kept order, up to the first refused one.

Timestamps are whole seconds since the epoch. The start date arrives already
parsed, as a day number counted from 1970-01-01 (`None` when it did not
parse). The remote service is a parameter: `list` answers the list request
for a window, and `CalendarHub.rejects` is the set of ids whose delete
request fails.

Facts about the program that the model keeps:
- `Event` in src/event.rs has no colour field, yet the colour filter reads
  `event.color`. The model gives `Event` a `color` field. `Event::build` and
  the adapter never set it, so it is the empty string for every fetched event.
- The adapter parses the start date with the format `%Y/%m/%d`, although the
  doc comments describe DD/MM/YYYY. The model takes the parsed date, not the text.
- Patterns are compiled while the configuration is deserialised;
  `PatternFilter::build` itself always succeeds.
- `delete_events` stops at the first failed deletion and does not go on with
  the rest of the list.
- A declined prompt (`exit(1)`) and an error returned from `main` both end
  with status 1.
- With colour "9" and the pattern "^temp" ignored, a fetched list of an
  all-day event, a colour-"9" event and "standup" keeps "standup", which
  "^temp" does not match (`Tidy.ThreeEventScenario`).

## Model

| member | source | states |
|---|---|---|
| `Events.Build` | src/event.rs:15-21 | each argument is stored unchanged in its field; the colour is the default (empty); the event is all-day exactly when the start is the epoch |
| `Events.BuildOverDefault` | src/event.rs:3-21 | a built event is the default event with id, start and name replaced |
| `Events.DefaultEventIsEmptyAllDay` | src/event.rs:3-11 | the default event has an empty id and name and starts at the epoch |
| `Filters.Filter.Exclude` | src/filters/mod.rs:24-27 | the one total verdict of every filter: all-day drops exactly the events at the epoch, colour exactly those whose colour is listed, pattern exactly those some pattern matches (all_day.rs:17-19, colour.rs:22-24, pattern.rs:23-25) |
| `Filters.AnyMatches` | src/filters/pattern.rs:23-25 | `any(is_match)` holds exactly when some pattern of the list matches the name |
| `Filters.BuildAllDay` | src/filters/all_day.rs:10-12 | building the all-day filter takes no configuration and always succeeds |
| `Filters.AllDayExcludesIff` | src/filters/all_day.rs:17-19 | the all-day filter excludes exactly the events whose start is the epoch |
| `Filters.AllDayReadsOnlyStart` | src/filters/all_day.rs:18 | id, name and colour never change the all-day verdict |
| `Filters.AllDayExamples` | src/filters/all_day.rs:28-48 | timestamp 0 is excluded, timestamp 1234567890 is kept |
| `Filters.BuildColour` | src/filters/colour.rs:13-17 | the colour filter holds the configured colours verbatim and building it always succeeds |
| `Filters.ColourExcludesIff` | src/filters/colour.rs:22-24 | the colour filter excludes exactly the events whose colour occurs in its list |
| `Filters.ColourOnlyMembership` | src/filters/colour.rs:23 | two lists with the same members give the same verdict, whatever their order and repetitions |
| `Filters.ColourEmptyListKeepsAll` | src/filters/colour.rs:23 | an empty colour list excludes nothing |
| `Filters.ColourReadsOnlyColour` | src/filters/colour.rs:23 | id, start and name never change the colour verdict |
| `Filters.ColourExamples` | src/filters/colour.rs:31-48 | with ["9", "8"], colour "9" is excluded and the empty colour is kept |
| `Filters.BuildPattern` | src/filters/pattern.rs:14-18 | the pattern filter holds the configured regexes verbatim and building it never fails |
| `Filters.PatternEmptyListKeepsAll` | src/filters/pattern.rs:24 | an empty pattern list excludes nothing |
| `Filters.PatternAddMonotone` | src/filters/pattern.rs:24 | inserting a pattern anywhere can turn a keep into an exclude but never the reverse |
| `Filters.PatternReadsOnlyName` | src/filters/pattern.rs:24 | id, start and colour never change the pattern verdict |
| `Filters.PatternExampleTemp` | src/filters/pattern.rs:33-60 | with "temp.*" and ".*backup", "temp_file.txt" is excluded |
| `Filters.PatternExampleBackup` | src/filters/pattern.rs:33-61 | with "temp.*" and ".*backup", "file.backup" is excluded |
| `Filters.PatternExampleKeep` | src/filters/pattern.rs:33-62 | with "temp.*" and ".*backup", "important.doc" is kept |
| `Filters.DefaultFilters` | src/filters/mod.rs:13-21 | always succeeds with exactly three filters: all-day, then colour over the ignored colours, then pattern over the ignored regexes |
| `Pipeline.AnyExcludes` | src/main.rs:55 | the set excludes an event exactly when some filter of it does |
| `Pipeline.Apply` | src/main.rs:50-56 | the kept list holds only events no filter excludes, contains every event no filter excludes, and is a subsequence of the fetched list |
| `Pipeline.ApplyCounts` | src/main.rs:55 | every kept event occurs as often as in the fetched list; every excluded event does not occur |
| `Pipeline.ApplyUnique` | src/main.rs:50-56 | any order-preserving sublist with those counts is the kept list, so the two properties define it |
| `Pipeline.ApplyIdempotent` | src/main.rs:55 | filtering the kept list again returns it unchanged |
| `Pipeline.ApplyMonotone` | src/main.rs:55 | a set that excludes no more than another keeps a list of which the other's kept list is a subsequence |
| `Pipeline.RemoveFilterKeepsMore` | src/main.rs:55 | removing one filter from the set can only grow the kept list |
| `Pipeline.AnyExcludesConcat` | src/main.rs:55 | a concatenated set excludes an event exactly when one of its parts does |
| `Pipeline.ApplySplit` | src/main.rs:55 | filtering by a concatenated set is filtering by the first part, then by the second |
| `Pipeline.ApplyCommute` | src/main.rs:55 | two filtering passes give the same list in either order |
| `Pipeline.FilterOrderIrrelevant` | src/main.rs:55 | swapping two parts of the filter set does not change the kept list |
| `Pipeline.SameVerdictSameKept` | src/main.rs:55 | two sets with the same verdict on every event keep the same list |
| `Pipeline.DefaultVerdict` | src/filters/mod.rs:14-18 | the default set excludes exactly the all-day events, those with an ignored colour, and those a configured regex matches |
| `Pipeline.DefaultFiltersReadOnlyIgnoreLists` | src/filters/mod.rs:16-17 | start date, day count, credentials path and calendar id never change what the default set keeps |
| `GoogleCalendar.BuildAgendaEvent` | src/clients/google_calendar.rs:87-96 | the id is copied; a start time is copied, a missing one gives the epoch (all-day); a missing summary gives the empty name; the colour stays empty |
| `GoogleCalendar.MapItems` | src/clients/google_calendar.rs:129-135 | the mapped list has the item list's length and order, item by item |
| `GoogleCalendar.QueryWindow` | src/clients/google_calendar.rs:103-113 | an unparsed date is an error; the window starts at the date's UTC midnight and ends 24 * days hours later; it is refused as out of range exactly when the end day falls outside chrono's dates |
| `GoogleCalendar.WindowOnMidnights` | src/clients/google_calendar.rs:105-112 | both ends of a window fall on UTC midnights, the end on day `date + days` |
| `GoogleCalendar.FetchEvents` | src/clients/google_calendar.rs:101-138 | window errors and list failures are returned; an absent item list gives no events; otherwise every item is mapped, in order |
| `GoogleCalendar.FirstRejected` | src/clients/google_calendar.rs:141-148 | the position of the first id whose deletion fails: all ids before it succeed, the one at it fails |
| `GoogleCalendar.CalendarHub.Delete` | src/clients/google_calendar.rs:143-147 | one delete request either records the id as deleted or fails for that id and changes nothing |
| `GoogleCalendar.GoogleCalendarClient.constructor` | src/clients/google_calendar.rs:28-31 | the client keeps the configuration and the service handle it was built with |
| `GoogleCalendar.GoogleCalendarClient.DeleteEvents` | src/clients/google_calendar.rs:140-150 | the ids up to the first refused one are deleted, each once and in list order; the result is that failure, or success when none is refused |
| `GoogleCalendar.UntimedEventsAreAllDay` | src/clients/google_calendar.rs:89-93 | an API event without a start time maps to an all-day event |
| `GoogleCalendar.FetchedColourIsEmpty` | src/clients/google_calendar.rs:95 | every fetched event has the empty colour, so the colour rule drops all fetched events or none |
| `GoogleCalendar.DeleteStopsAtSecond` | src/clients/google_calendar.rs:141-148 | with three ids and the second refused, only the first is deleted and the error names the second |
| `Tidy.ExitStatus` | src/main.rs:58-74 | status 0 for a finished run or nothing to delete, 1 for a declined prompt or an error |
| `Tidy.Ids` | src/main.rs:68 | the id list has the kept list's length and holds each kept event's id at its position |
| `Tidy.Decide` | src/main.rs:58-72 | an empty kept list deletes nothing; otherwise deletion happens exactly on an explicit yes, with the kept ids in kept order |
| `Tidy.Kept` | src/main.rs:47-56 | an event is kept exactly when it is not all-day, its colour is off the ignore list and no pattern matches its name: every kept event passes, every fetched event that passes is kept, and the kept list is a subsequence of the fetched one |
| `Tidy.Run` | src/main.rs:38-75 | a fetch error, an empty kept list and a declined prompt leave the calendar untouched; an explicit yes deletes the kept ids in order up to the first refusal and reports it |
| `Tidy.ThreeEventScenario` | src/main.rs:50-72 | all-day, colour "9" and "standup" against ["9"] and "^temp": only "standup" is kept, and a yes deletes only its id |
| `Tidy.DeclinedScenario` | src/main.rs:58-72 | a non-empty kept list and a declined prompt abort without deleting |

## Left out

- OAuth and transport setup (src/clients/google_calendar.rs:25-84): reading the credentials, token storage, the HTTPS connectors. These are I/O and foreign libraries.
- The actual API calls. The list request becomes the `list` parameter of `FetchEvents`. Each delete request becomes `CalendarHub.Delete`, which fails for a fixed set of ids. Failures that vary from call to call for the same id are not modelled.
- The list request's options (single events, the two event types, ordering by start time) and the calendar id the requests address. The service is trusted to apply them.
- `GoogleCalendar.GoogleCalendarClient.DeleteEvents`: the program returns the service's own error. The model's error carries the failing id, which the program prints just before each request.
- Configuration loading (src/config.rs:38-58) and the compilation of the ignored patterns. The model starts from a built `Config` value.
- The regex engine. A pattern is given by its matcher. The literal and prefix matchers exist only to state the unit tests and `Tidy.ThreeEventScenario`.
- Date parsing with `%Y/%m/%d`, time zones and sub-second precision. The start date is a day number, and instants are whole seconds in UTC.
- `GoogleCalendar.QueryWindow`: a `Duration` that does not fit chrono's bounds makes the program panic, so it is a precondition; it applies only once the date has parsed, since an unparsed date is returned as an error first. A release build would instead wrap `24 * days` around 64 bits before that check. The model follows the checked arithmetic.
- `GoogleCalendar.BuildAgendaEvent`: a missing event id makes the program panic (`unwrap`), so the model requires the id.
- The command line (src/main.rs:17-35), the table rendering (src/main.rs:77-99), the prompt itself and the printed messages. Only the prompt's result enters the model.
- async and tokio: the run is modelled as sequential.
- Cloning events: events are immutable values here, so a copy equals the original by construction.
