/**
  * The run of calendar-tidy (src/main.rs): fetch, filter with the default
  * set, stop when nothing survives, ask for confirmation, and delete the
  * survivors only on an explicit yes.
  */
module Tidy {
  import opened Wrappers
  import opened Events
  import opened Config
  import opened Filters
  import opened Pipeline
  import opened GoogleCalendar

  /** What the confirmation prompt returned: Ok(true), Ok(false) or an error. */
  datatype Answer = Yes | No | PromptFailed

  /** What the program does with the kept list. */
  datatype Decision =
    | NothingToDelete          // "No events to delete!", exit(0)
    | Abort                    // exit(1)
    | DeleteAll(ids: seq<string>)

  /** How a run ends. */
  datatype Outcome = Completed | NoEvents | Declined | Failed(error: Error)

  /** The process status: main returning Err and the exit(1) on a declined prompt both give 1. */
  function ExitStatus(o: Outcome): (status: int)
    ensures status == 0 <==> o.Completed? || o.NoEvents?
    ensures status == 1 <==> o.Declined? || o.Failed?
  {
    match o
    case Completed => 0
    case NoEvents => 0
    case Declined => 1
    case Failed(_) => 1
  }

  /** filtered_events.into_iter().map(|e| e.id).collect(): the ids, in the same order. */
  function Ids(events: seq<Event>): (ids: seq<string>)
    ensures |ids| == |events|
    ensures forall i :: 0 <= i < |events| ==> ids[i] == events[i].id
  {
    seq(|events|, i requires 0 <= i < |events| => events[i].id)
  }

  /**
    * The deletion gate: an empty kept list deletes nothing; otherwise only an
    * explicit yes deletes, and then exactly the kept events' ids, in kept order.
    */
  function Decide(kept: seq<Event>, answer: Answer): (d: Decision)
    ensures d.NothingToDelete? <==> kept == []
    ensures d.DeleteAll? <==> kept != [] && answer == Yes
    ensures d.Abort? <==> kept != [] && answer != Yes
    ensures d.DeleteAll? ==> |d.ids| == |kept| && forall i :: 0 <= i < |kept| ==> d.ids[i] == kept[i].id
  {
    if kept == [] then NothingToDelete
    else if answer == Yes then DeleteAll(Ids(kept))
    else Abort
  }

  /** The kept list of a run: the fetched events that no default filter excludes. */
  function Kept(config: Config, fetched: seq<Event>): (kept: seq<Event>)
    ensures IsSubsequence(kept, fetched)
    ensures forall i :: 0 <= i < |kept| ==>
              && !IsAllDay(kept[i])
              && kept[i].color !in config.ignoredColours
              && !AnyMatches(config.ignoredRegex, kept[i].name)
    ensures forall i :: 0 <= i < |fetched| ==>
              (!IsAllDay(fetched[i]) && fetched[i].color !in config.ignoredColours
               && !AnyMatches(config.ignoredRegex, fetched[i].name)) ==> fetched[i] in kept
  {
    var kept := Apply(DefaultFilters(config).value, fetched);
    assert forall i | 0 <= i < |kept| ::
             !IsAllDay(kept[i]) && kept[i].color !in config.ignoredColours
             && !AnyMatches(config.ignoredRegex, kept[i].name) by {
      forall i | 0 <= i < |kept| {
        DefaultVerdict(config, kept[i]);
      }
    }
    assert forall i | 0 <= i < |fetched| && !IsAllDay(fetched[i])
                      && fetched[i].color !in config.ignoredColours
                      && !AnyMatches(config.ignoredRegex, fetched[i].name) :: fetched[i] in kept by {
      forall i | 0 <= i < |fetched| {
        DefaultVerdict(config, fetched[i]);
      }
    }
    kept
  }

  /**
    * One run of main after the configuration, the client and the filters are
    * built. `date` is the parsed start date, `list` the service's answer to
    * the list request and `answer` the prompt's result. The service sees
    * delete requests only for an explicit yes on a non-empty kept list.
    */
  method Run(client: GoogleCalendarClient, date: Option<int>,
             list: Window -> Result<Option<seq<GCalEvent>>>, answer: Answer) returns (outcome: Outcome)
    requires date.Some? ==> MinDay <= date.value <= MaxDay
    requires date.Some? ==> DurationInRange(client.config.days)
    requires QueryWindow(date, client.config.days).Ok? ==>
               ItemsHaveIds(list(QueryWindow(date, client.config.days).value))
    modifies client.hub
    ensures var fetched := FetchEvents(client.config, date, list);
            match fetched
            case Err(e) => outcome == Failed(e) && client.hub.deleted == old(client.hub.deleted)
            case Ok(events) =>
              match Decide(Kept(client.config, events), answer)
              case NothingToDelete => outcome == NoEvents && client.hub.deleted == old(client.hub.deleted)
              case Abort => outcome == Declined && client.hub.deleted == old(client.hub.deleted)
              case DeleteAll(ids) =>
                var n := FirstRejected(ids, client.hub.rejects);
                && client.hub.deleted == old(client.hub.deleted) + ids[..n]
                && outcome == if n == |ids| then Completed else Failed(DeleteFailed(ids[n]))
  {
    var filters := DefaultFilters(client.config);
    var fetched := FetchEvents(client.config, date, list);
    if fetched.Err? {
      return Failed(fetched.error);
    }
    var kept := Apply(filters.value, fetched.value);
    assert kept == Kept(client.config, fetched.value);
    if kept == [] {
      return NoEvents;
    }
    match answer {
      case Yes =>
        var ids := Ids(kept);
        var deleted := client.DeleteEvents(ids);
        outcome := if deleted.Ok? then Completed else Failed(deleted.error);
      case _ =>
        outcome := Declined;
    }
  }

  /** A regex anchored at the start of the name, as "^temp" is. */
  function PrefixRegex(source: string, prefix: string): (r: Regex)
    ensures forall name :: r.isMatch(name) <==> |prefix| <= |name| && name[..|prefix|] == prefix
  {
    Regex(source, name => |prefix| <= |name| && name[..|prefix|] == prefix)
  }

  /** The configuration of the three-event scenario: colour "9" and the pattern "^temp" are ignored. */
  function ScenarioConfig(): Config {
    Config("2024/01/15", 1, "credentials.json", "primary", ["9"], [PrefixRegex("^temp", "temp")])
  }

  /**
    * Three fetched events: an all-day one, one coloured "9", and "standup".
    * The first two are dropped; "standup" does not match "^temp" and is kept,
    * so a yes deletes it alone.
    */
  lemma ThreeEventScenario()
    ensures var events := [Event("a", Epoch, "offsite", ""), Event("b", 1700000000, "review", "9"),
                           Event("c", 1700003600, "standup", "")];
            && Kept(ScenarioConfig(), events) == [events[2]]
            && Decide(Kept(ScenarioConfig(), events), Yes) == DeleteAll(["c"])
  {
    var config := ScenarioConfig();
    var allDay, coloured, standup := Event("a", Epoch, "offsite", ""), Event("b", 1700000000, "review", "9"),
                                     Event("c", 1700003600, "standup", "");
    var fs := DefaultFilters(config).value;
    var events := [allDay, coloured, standup];
    assert AnyExcludes(fs, allDay) by {
      DefaultVerdict(config, allDay);
    }
    assert AnyExcludes(fs, coloured) by {
      DefaultVerdict(config, coloured);
      assert coloured.color == config.ignoredColours[0];
    }
    assert !AnyExcludes(fs, standup) by {
      assert !config.ignoredRegex[0].isMatch("standup") by {
        assert "standup"[..4][0] == 's';
      }
      DefaultVerdict(config, standup);
    }
    assert events[1..] == [coloured, standup] && [coloured, standup][1..] == [standup] && [standup][1..] == [];
    assert Apply(fs, [standup]) == [standup] + Apply(fs, []);
    assert Apply(fs, [coloured, standup]) == Apply(fs, [standup]);
    assert Apply(fs, events) == Apply(fs, [coloured, standup]);
  }

  /** Two events no filter excludes and a declined prompt: the run deletes nothing. */
  lemma DeclinedScenario(config: Config, first: Event, second: Event, answer: Answer)
    requires !AnyExcludes(DefaultFilters(config).value, first)
    requires answer != Yes
    ensures Decide(Kept(config, [first, second]), answer) == Abort
  {
    assert first in Kept(config, [first, second]) by {
      assert [first, second][0] == first;
    }
  }
}
