/** The configuration value the filters are built from (src/config.rs). */
module Config {

  /**
    * A compiled regular expression: its source text and its matcher. The
    * matcher stands for Regex::is_match, which reports whether the pattern
    * matches anywhere in the text; the regex engine itself is not modelled.
    */
  datatype Regex = Regex(source: string, isMatch: string -> bool)

  /**
    * The settings calendar-tidy runs with. Loading them from the file system
    * and compiling the patterns happen before this value exists.
    */
  datatype Config = Config(
    startDate: string,              // the date to clean, as typed by the user
    days: int,                      // number of days to clean (an i64)
    credentialsPath: string,
    calendarId: string,
    ignoredColours: seq<string>,
    ignoredRegex: seq<Regex>
  )

  /** True when `part` occurs somewhere in `text`. */
  predicate Occurs(part: string, text: string)
    decreases |text|
  {
    if |text| < |part| then false
    else text[..|part|] == part || Occurs(part, text[1..])
  }

  /**
    * A regex that matches a fixed piece of text anywhere in the name, which is
    * how is_match treats patterns such as "temp.*" or ".*backup".
    */
  function LiteralRegex(source: string, literal: string): (r: Regex)
    ensures r.source == source
    ensures forall name :: r.isMatch(name) <==> Occurs(literal, name)
    ensures forall name :: r.isMatch(name) <==> exists k :: OccursAtOffset(literal, name, k)
  {
    assert forall name :: Occurs(literal, name) <==> exists k :: OccursAtOffset(literal, name, k) by {
      forall name {
        OccursAt(literal, name);
      }
    }
    Regex(source, name => Occurs(literal, name))
  }

  /** `part` sits in `text` at offset k. */
  predicate OccursAtOffset(part: string, text: string, k: int) {
    0 <= k <= |text| - |part| && text[k..k + |part|] == part
  }

  /** Occurs is substring search: it holds exactly when `part` sits at some offset of `text`. */
  lemma {:induction false} OccursAt(part: string, text: string)
    ensures Occurs(part, text) <==> exists k :: OccursAtOffset(part, text, k)
    decreases |text|
  {
    if |text| >= |part| {
      if text[..|part|] == part {
        assert OccursAtOffset(part, text, 0);
      } else if |text| > 0 {
        OccursAt(part, text[1..]);
        if Occurs(part, text[1..]) {
          var k :| OccursAtOffset(part, text[1..], k);
          assert OccursAtOffset(part, text, k + 1);
        }
        if exists k :: OccursAtOffset(part, text, k) {
          var k :| OccursAtOffset(part, text, k);
          assert k > 0;
          assert OccursAtOffset(part, text[1..], k - 1);
        }
      }
    }
  }

  /** A text lacking some character of `part` cannot contain `part`. */
  lemma {:induction false} MissingCharNoOccurrence(part: string, text: string, ch: char)
    requires ch in part && ch !in text
    ensures !Occurs(part, text)
    decreases |text|
  {
    if |text| >= |part| {
      var j :| 0 <= j < |part| && part[j] == ch;
      assert text[..|part|][j] == text[j];
      MissingCharNoOccurrence(part, text[1..], ch);
    }
  }
}
