/**
  * The filter chain of src/main.rs: an event survives when no filter in the
  * set excludes it, and the survivors keep their original order.
  */
module Pipeline {
  import opened Events
  import opened Config
  import opened Filters

  /** filters.iter().any(|f| f.exclude(e)): some filter of the set drops the event. */
  function AnyExcludes(filters: seq<Filter>, e: Event): (r: bool)
    ensures r <==> exists i :: 0 <= i < |filters| && filters[i].Exclude(e)
  {
    if filters == [] then false
    else filters[0].Exclude(e) || AnyExcludes(filters[1..], e)
  }

  /** `s` is obtained from `t` by deleting elements, without reordering. */
  predicate IsSubsequence<T(==)>(s: seq<T>, t: seq<T>)
    decreases |t|
  {
    if s == [] then true
    else if t == [] then false
    else (s[0] == t[0] && IsSubsequence(s[1..], t[1..])) || IsSubsequence(s, t[1..])
  }

  /**
    * events.into_iter().filter(|e| !filters.iter().any(|f| f.exclude(e))).collect():
    * the kept list holds only events no filter excludes, is a subsequence of
    * the fetched list, and loses none of the events every filter lets through.
    */
  function Apply(filters: seq<Filter>, events: seq<Event>): (kept: seq<Event>)
    ensures forall i :: 0 <= i < |kept| ==> !AnyExcludes(filters, kept[i])
    ensures forall i :: 0 <= i < |events| && !AnyExcludes(filters, events[i]) ==> events[i] in kept
    ensures IsSubsequence(kept, events)
  {
    if events == [] then []
    else if AnyExcludes(filters, events[0]) then Apply(filters, events[1..])
    else [events[0]] + Apply(filters, events[1..])
  }

  /**
    * Apply loses no copy of a kept event: each event occurs in the kept list
    * as often as in the fetched list when no filter excludes it, and not at all otherwise.
    */
  lemma {:induction false} ApplyCounts(filters: seq<Filter>, events: seq<Event>, e: Event)
    ensures multiset(Apply(filters, events))[e] == if AnyExcludes(filters, e) then 0 else multiset(events)[e]
    decreases |events|
  {
    if events != [] {
      ApplyCounts(filters, events[1..], e);
      assert events == [events[0]] + events[1..];
    }
  }

  /** A subsequence holds no more copies of anything than the sequence it came from. */
  lemma {:induction false} SubsequenceCounts<T>(s: seq<T>, t: seq<T>)
    requires IsSubsequence(s, t)
    ensures multiset(s) <= multiset(t)
    decreases |t|
  {
    if s != [] {
      assert t == [t[0]] + t[1..];
      if s[0] == t[0] && IsSubsequence(s[1..], t[1..]) {
        SubsequenceCounts(s[1..], t[1..]);
        assert s == [s[0]] + s[1..];
      } else {
        SubsequenceCounts(s, t[1..]);
      }
    }
  }

  /**
    * Apply is the only list with its two defining properties: any subsequence
    * of the fetched events that keeps every copy of every event no filter
    * excludes, and nothing else, is the kept list.
    */
  lemma {:induction false} ApplyUnique(filters: seq<Filter>, events: seq<Event>, r: seq<Event>)
    requires IsSubsequence(r, events)
    requires forall e :: multiset(r)[e] == if AnyExcludes(filters, e) then 0 else multiset(events)[e]
    ensures r == Apply(filters, events)
    decreases |events|
  {
    if events != [] {
      var x, rest := events[0], events[1..];
      assert events == [x] + rest;
      if r == [] {
        // Then every event of the list is excluded.
        ApplyUnique(filters, rest, r);
        assert AnyExcludes(filters, x) by {
          assert multiset(r)[x] == 0;
        }
      } else if AnyExcludes(filters, x) {
        assert r[0] != x by {
          assert r[0] in multiset(r);
        }
        forall e ensures multiset(r)[e] == if AnyExcludes(filters, e) then 0 else multiset(rest)[e] {
        }
        ApplyUnique(filters, rest, r);
      } else {
        assert r[0] == x && IsSubsequence(r[1..], rest) by {
          if !(r[0] == x && IsSubsequence(r[1..], rest)) {
            SubsequenceCounts(r, rest);
            assert false;
          }
        }
        assert r == [x] + r[1..];
        forall e ensures multiset(r[1..])[e] == if AnyExcludes(filters, e) then 0 else multiset(rest)[e] {
        }
        ApplyUnique(filters, rest, r[1..]);
      }
    }
  }

  /** Filtering the kept list again changes nothing. */
  lemma {:induction false} ApplyIdempotent(filters: seq<Filter>, events: seq<Event>)
    ensures Apply(filters, Apply(filters, events)) == Apply(filters, events)
    decreases |events|
  {
    if events != [] {
      ApplyIdempotent(filters, events[1..]);
      if !AnyExcludes(filters, events[0]) {
        assert ([events[0]] + Apply(filters, events[1..]))[1..] == Apply(filters, events[1..]);
      }
    }
  }

  /**
    * A filter set that excludes no more than another keeps at least as much:
    * what the stricter set keeps is a subsequence of what the laxer set keeps.
    */
  lemma {:induction false} ApplyMonotone(strict: seq<Filter>, lax: seq<Filter>, events: seq<Event>)
    requires forall e :: AnyExcludes(lax, e) ==> AnyExcludes(strict, e)
    ensures IsSubsequence(Apply(strict, events), Apply(lax, events))
    decreases |events|
  {
    if events != [] {
      ApplyMonotone(strict, lax, events[1..]);
      var s, l := Apply(strict, events[1..]), Apply(lax, events[1..]);
      if !AnyExcludes(strict, events[0]) {
        assert ([events[0]] + s)[1..] == s && ([events[0]] + l)[1..] == l;
      } else if !AnyExcludes(lax, events[0]) {
        assert ([events[0]] + l)[1..] == l;
      }
    }
  }

  /** Removing any one filter from the set can only grow the kept list. */
  lemma RemoveFilterKeepsMore(filters: seq<Filter>, k: nat, events: seq<Event>)
    requires k < |filters|
    ensures IsSubsequence(Apply(filters, events), Apply(filters[..k] + filters[k + 1..], events))
  {
    var fewer := filters[..k] + filters[k + 1..];
    forall e | AnyExcludes(fewer, e) ensures AnyExcludes(filters, e) {
      var i :| 0 <= i < |fewer| && fewer[i].Exclude(e);
      if i < k {
        assert filters[i] == fewer[i];
      } else {
        assert filters[i + 1] == fewer[i];
      }
    }
    ApplyMonotone(filters, fewer, events);
  }

  /** A concatenated set excludes an event exactly when one of its parts does. */
  lemma AnyExcludesConcat(first: seq<Filter>, second: seq<Filter>, e: Event)
    ensures AnyExcludes(first + second, e) <==> AnyExcludes(first, e) || AnyExcludes(second, e)
  {
    var both := first + second;
    if AnyExcludes(both, e) {
      var i :| 0 <= i < |both| && both[i].Exclude(e);
      if i >= |first| {
        assert second[i - |first|] == both[i];
      }
    }
    if AnyExcludes(first, e) {
      var i :| 0 <= i < |first| && first[i].Exclude(e);
      assert both[i] == first[i];
    }
    if AnyExcludes(second, e) {
      var i :| 0 <= i < |second| && second[i].Exclude(e);
      assert both[|first| + i] == second[i];
    }
  }

  /** Filtering by a concatenated set is filtering by one part, then by the other. */
  lemma {:induction false} ApplySplit(first: seq<Filter>, second: seq<Filter>, events: seq<Event>)
    ensures Apply(first + second, events) == Apply(second, Apply(first, events))
    decreases |events|
  {
    if events != [] {
      ApplySplit(first, second, events[1..]);
      var e := events[0];
      AnyExcludesConcat(first, second, e);
      if !AnyExcludes(first, e) {
        assert ([e] + Apply(first, events[1..]))[1..] == Apply(first, events[1..]);
      }
    }
  }

  /** The order of the filters does not change the kept list. */
  lemma FilterOrderIrrelevant(first: seq<Filter>, second: seq<Filter>, events: seq<Event>)
    ensures Apply(first + second, events) == Apply(second + first, events)
  {
    ApplySplit(first, second, events);
    ApplySplit(second, first, events);
    ApplyCommute(first, second, events);
  }

  /** Filtering by two sets one after the other gives the same list in either order. */
  lemma {:induction false} ApplyCommute(first: seq<Filter>, second: seq<Filter>, events: seq<Event>)
    ensures Apply(second, Apply(first, events)) == Apply(first, Apply(second, events))
    decreases |events|
  {
    if events != [] {
      ApplyCommute(first, second, events[1..]);
      var e, rest := events[0], events[1..];
      if !AnyExcludes(first, e) {
        assert ([e] + Apply(first, rest))[1..] == Apply(first, rest);
      }
      if !AnyExcludes(second, e) {
        assert ([e] + Apply(second, rest))[1..] == Apply(second, rest);
      }
    }
  }

  /**
    * The verdict of the default set: an event is dropped exactly when it is
    * all-day, its colour is ignored, or some ignored pattern matches its name.
    */
  lemma DefaultVerdict(config: Config, e: Event)
    ensures AnyExcludes(DefaultFilters(config).value, e) <==>
            || IsAllDay(e)
            || e.color in config.ignoredColours
            || exists i :: 0 <= i < |config.ignoredRegex| && config.ignoredRegex[i].isMatch(e.name)
  {
  }

  /**
    * The default set reads only the ignored colours and patterns: the start
    * date, the day count, the credentials and the calendar id never change what is kept.
    */
  lemma {:induction false} DefaultFiltersReadOnlyIgnoreLists(config: Config, startDate: string, days: int,
                                                           credentialsPath: string, calendarId: string,
                                                           events: seq<Event>)
    ensures var other := config.(startDate := startDate, days := days,
                                 credentialsPath := credentialsPath, calendarId := calendarId);
            Apply(DefaultFilters(config).value, events) == Apply(DefaultFilters(other).value, events)
  {
    var other := config.(startDate := startDate, days := days,
                         credentialsPath := credentialsPath, calendarId := calendarId);
    forall e ensures AnyExcludes(DefaultFilters(config).value, e) == AnyExcludes(DefaultFilters(other).value, e) {
      DefaultVerdict(config, e);
      DefaultVerdict(other, e);
    }
    SameVerdictSameKept(DefaultFilters(config).value, DefaultFilters(other).value, events);
  }

  /** Two filter sets with the same verdict on every event keep the same list. */
  lemma {:induction false} SameVerdictSameKept(fs: seq<Filter>, gs: seq<Filter>, events: seq<Event>)
    requires forall e :: AnyExcludes(fs, e) == AnyExcludes(gs, e)
    ensures Apply(fs, events) == Apply(gs, events)
  {
    forall e ensures multiset(Apply(fs, events))[e] == if AnyExcludes(gs, e) then 0 else multiset(events)[e] {
      ApplyCounts(fs, events, e);
    }
    ApplyUnique(gs, events, Apply(fs, events));
  }
}
