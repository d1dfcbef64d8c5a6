/**
  * The exclusion rules (src/filters/). The program's Filter trait and its
  * three implementations become one closed datatype with one constructor per
  * implementation; Exclude dispatches on it.
  */
module Filters {
  import opened Wrappers
  import opened Events
  import opened Config

  datatype Filter =
    | AllDayFilter                            // no state
    | ColourFilter(colours: seq<string>)      // colours to ignore
    | PatternFilter(regexs: seq<Regex>)       // compiled name patterns to ignore
  {
    /**
      * Filter::exclude: whether this filter drops the event. Total; never fails.
      * The all-day filter drops events at the epoch, the colour filter events
      * whose colour is listed, the pattern filter events some pattern matches.
      */
    function Exclude(e: Event): (excluded: bool)
      ensures AllDayFilter? ==> (excluded <==> IsAllDay(e))
      ensures ColourFilter? ==> (excluded <==> exists i :: 0 <= i < |colours| && colours[i] == e.color)
      ensures PatternFilter? ==> (excluded <==> exists i :: 0 <= i < |regexs| && regexs[i].isMatch(e.name))
    {
      match this
      case AllDayFilter => e.startTime == Epoch
      case ColourFilter(colours) => e.color in colours
      case PatternFilter(regexs) => AnyMatches(regexs, e.name)
    }
  }

  /** regexs.iter().any(|r| r.is_match(name)): some pattern matches the name. */
  function AnyMatches(regexs: seq<Regex>, name: string): (r: bool)
    ensures r <==> exists i :: 0 <= i < |regexs| && regexs[i].isMatch(name)
  {
    if regexs == [] then false
    else regexs[0].isMatch(name) || AnyMatches(regexs[1..], name)
  }

  // ---------------------------------------------------------------- all_day.rs

  /** AllDayFilter::build takes no configuration and always succeeds. */
  function BuildAllDay(): (r: Result<Filter>)
    ensures r.Ok? && r.value.AllDayFilter?
  {
    Ok(AllDayFilter)
  }

  /** The all-day filter drops exactly the events that start at the epoch. */
  lemma AllDayExcludesIff(e: Event)
    ensures AllDayFilter.Exclude(e) <==> IsAllDay(e)
  {
  }

  /** The all-day verdict reads only the start time. */
  lemma AllDayReadsOnlyStart(e: Event, id: string, name: string, color: string)
    ensures AllDayFilter.Exclude(e.(id := id, name := name, color := color)) == AllDayFilter.Exclude(e)
  {
  }

  /** The two unit tests of all_day.rs: the epoch is excluded, 1234567890 is kept. */
  lemma AllDayExamples()
    ensures AllDayFilter.Exclude(DefaultEvent.(startTime := 0))
    ensures !AllDayFilter.Exclude(DefaultEvent.(startTime := 1234567890))
  {
  }

  // ----------------------------------------------------------------- colour.rs

  /** ColourFilter::build copies the configured colours verbatim and always succeeds. */
  function BuildColour(config: Config): (r: Result<Filter>)
    ensures r.Ok? && r.value.ColourFilter? && r.value.colours == config.ignoredColours
  {
    Ok(ColourFilter(config.ignoredColours))
  }

  /** The colour filter drops exactly the events whose colour is listed. */
  lemma ColourExcludesIff(colours: seq<string>, e: Event)
    ensures ColourFilter(colours).Exclude(e) <==> exists i :: 0 <= i < |colours| && colours[i] == e.color
  {
  }

  /** Only membership matters: lists with the same elements, in any order and with any repetition, agree. */
  lemma ColourOnlyMembership(c1: seq<string>, c2: seq<string>, e: Event)
    requires forall c :: c in c1 <==> c in c2
    ensures ColourFilter(c1).Exclude(e) == ColourFilter(c2).Exclude(e)
  {
  }

  /** An empty ignore list drops nothing, not even events with an empty colour. */
  lemma ColourEmptyListKeepsAll(e: Event)
    ensures !ColourFilter([]).Exclude(e)
  {
  }

  /** The colour verdict reads only the colour. */
  lemma ColourReadsOnlyColour(colours: seq<string>, e: Event, id: string, start: Timestamp, name: string)
    ensures ColourFilter(colours).Exclude(e.(id := id, startTime := start, name := name))
            == ColourFilter(colours).Exclude(e)
  {
  }

  /** The unit test of colour.rs: with ["9", "8"], colour "9" is dropped and "" is kept. */
  lemma ColourExamples()
    ensures ColourFilter(["9", "8"]).Exclude(DefaultEvent.(color := "9"))
    ensures !ColourFilter(["9", "8"]).Exclude(DefaultEvent.(color := ""))
  {
  }

  // ---------------------------------------------------------------- pattern.rs

  /** PatternFilter::build copies the configured patterns verbatim and never fails. */
  function BuildPattern(config: Config): (r: Result<Filter>)
    ensures r.Ok? && r.value.PatternFilter? && r.value.regexs == config.ignoredRegex
  {
    Ok(PatternFilter(config.ignoredRegex))
  }

  /** An empty pattern list drops nothing. */
  lemma PatternEmptyListKeepsAll(e: Event)
    ensures !PatternFilter([]).Exclude(e)
  {
  }

  /**
    * Adding a pattern anywhere in the list can only turn a keep into an
    * exclude, never the reverse.
    */
  lemma {:induction false} PatternAddMonotone(regexs: seq<Regex>, k: nat, extra: Regex, e: Event)
    requires k <= |regexs|
    ensures PatternFilter(regexs).Exclude(e) ==> PatternFilter(regexs[..k] + [extra] + regexs[k..]).Exclude(e)
  {
    var grown := regexs[..k] + [extra] + regexs[k..];
    if PatternFilter(regexs).Exclude(e) {
      var i :| 0 <= i < |regexs| && regexs[i].isMatch(e.name);
      if i < k {
        assert grown[i] == regexs[i];
      } else {
        assert grown[i + 1] == regexs[i];
      }
    }
  }

  /** The pattern verdict reads only the name. */
  lemma PatternReadsOnlyName(regexs: seq<Regex>, e: Event, id: string, start: Timestamp, color: string)
    ensures PatternFilter(regexs).Exclude(e.(id := id, startTime := start, color := color))
            == PatternFilter(regexs).Exclude(e)
  {
  }

  /** The two patterns of the unit test of pattern.rs; both match anywhere in the name. */
  function TestPatterns(): seq<Regex> {
    [LiteralRegex("temp.*", "temp"), LiteralRegex(".*backup", "backup")]
  }

  /** The unit test of pattern.rs: "temp_file.txt" matches "temp.*" and is dropped. */
  lemma PatternExampleTemp()
    ensures PatternFilter(TestPatterns()).Exclude(DefaultEvent.(name := "temp_file.txt"))
  {
    assert LiteralRegex("temp.*", "temp").isMatch("temp_file.txt") by {
      assert Occurs("temp", "temp_file.txt");
    }
  }

  /** The unit test of pattern.rs: "file.backup" matches ".*backup" and is dropped. */
  lemma PatternExampleBackup()
    ensures PatternFilter(TestPatterns()).Exclude(DefaultEvent.(name := "file.backup"))
  {
  }

  /** The unit test of pattern.rs: "important.doc" matches neither pattern and is kept. */
  lemma PatternExampleKeep()
    ensures !PatternFilter(TestPatterns()).Exclude(DefaultEvent.(name := "important.doc"))
  {
    var temp, backup := LiteralRegex("temp.*", "temp"), LiteralRegex(".*backup", "backup");
    assert !temp.isMatch("important.doc") by {
      MissingCharNoOccurrence("temp", "important.doc", 'e');
    }
    assert !backup.isMatch("important.doc") by {
      MissingCharNoOccurrence("backup", "important.doc", 'b');
    }
    assert TestPatterns() == [temp, backup];
    assert [temp, backup][1..] == [backup];
  }

  // -------------------------------------------------------------------- mod.rs

  /** default_filters: always succeeds with exactly AllDay, Colour, Pattern, in that order. */
  function DefaultFilters(config: Config): (r: Result<seq<Filter>>)
    ensures r.Ok? && |r.value| == 3
    ensures r.value[0].AllDayFilter?
    ensures r.value[1].ColourFilter? && r.value[1].colours == config.ignoredColours
    ensures r.value[2].PatternFilter? && r.value[2].regexs == config.ignoredRegex
  {
    Ok([BuildAllDay().value, BuildColour(config).value, BuildPattern(config).value])
  }
}
