/**
 * `search_resume`: a case-insensitive keyword search over the lines of the
 * résumé text that shows at most six matching lines, or a fixed message when
 * no line matches.
 */
module ResumeSearch {
  import opened Text
  import opened Seqs

  const NoMatches: string := "No matches found."
  const MaxShown: nat := 6
  const LineSeparator: char := '\n'
  /** The separator placed between shown lines: a blank line. */
  const ShownSeparator: string := "\n\n"

  /** The test applied to each line, against an already lower-cased query. */
  function MatchesQuery(loweredQuery: string): string -> bool
  {
    line => Contains(Lower(line), loweredQuery)
  }

  /** Every matching line of `text`, in order (the list comprehension). */
  function Hits(query: string, text: string): seq<string>
  {
    Filter(SplitOn(text, LineSeparator), MatchesQuery(Lower(query)))
  }

  /** The answer: the leading hits joined by a blank line, or the fixed message when there is none. */
  function SearchResume(query: string, text: string): (r: string)
    ensures Hits(query, text) == [] ==> r == NoMatches
    ensures Hits(query, text) != [] ==> StartsWith(r, Hits(query, text)[0])
  {
    var results := Hits(query, text);
    if |results| > 0 then Join(Take(results, MaxShown), ShownSeparator) else NoMatches
  }

  /**
   * The hits are exactly the lines whose lower-cased form contains the
   * lower-cased query, kept in their original relative order, and none of them
   * holds a line break.
   */
  lemma HitsAreMatchingLines(query: string, text: string)
    ensures var lines := SplitOn(text, LineSeparator);
            var hits := Hits(query, text);
            && IsSubsequence(hits, lines)
            && (forall line :: line in hits <==> line in lines && Contains(Lower(line), Lower(query)))
            && |hits| == CountIf(lines, MatchesQuery(Lower(query)))
            && (forall k :: 0 <= k < |hits| ==> LineSeparator !in hits[k])
  {
    MatchingLines(SplitOn(text, LineSeparator), Lower(query));
  }

  /** The same facts for any list of whole lines and any lower-cased query. */
  lemma MatchingLines(lines: seq<string>, q: string)
    requires forall k :: 0 <= k < |lines| ==> LineSeparator !in lines[k]
    ensures var hits := Filter(lines, MatchesQuery(q));
            && IsSubsequence(hits, lines)
            && (forall line :: line in hits <==> line in lines && Contains(Lower(line), q))
            && |hits| == CountIf(lines, MatchesQuery(q))
            && (forall k :: 0 <= k < |hits| ==> LineSeparator !in hits[k])
  {
    var p := MatchesQuery(q);
    var hits := Filter(lines, p);
    assert IsSubsequence(hits, lines) && |hits| == CountIf(lines, p) by {
      FilterCharacterization(lines, p);
    }
    assert forall line :: line in hits <==> line in lines && Contains(Lower(line), q) by {
      FilterCharacterization(lines, p);
      assert forall line :: p(line) == Contains(Lower(line), q);
    }
    FilteredLinesHoldNoLineBreak(lines, p);
  }

  /** Whatever the test, filtering whole lines gives whole lines, none holding a line break. */
  lemma FilteredLinesHoldNoLineBreak(lines: seq<string>, p: string -> bool)
    requires forall k :: 0 <= k < |lines| ==> LineSeparator !in lines[k]
    ensures forall k :: 0 <= k < |Filter(lines, p)| ==> LineSeparator !in Filter(lines, p)[k]
  {
    var kept := Filter(lines, p);
    FilterCharacterization(lines, p);
    forall k | 0 <= k < |kept|
      ensures LineSeparator !in kept[k]
    {
      assert kept[k] in lines;
      var j :| 0 <= j < |lines| && lines[j] == kept[k];
    }
  }

  /** When no line matches, the answer is the fixed message. */
  lemma NoMatchGivesMessage(query: string, text: string)
    requires forall line :: line in SplitOn(text, LineSeparator) ==> !Contains(Lower(line), Lower(query))
    ensures SearchResume(query, text) == NoMatches
  {
    var lines := SplitOn(text, LineSeparator);
    FilterEmptyIff(lines, MatchesQuery(Lower(query)));
  }

  /**
   * When some line matches, the answer is the first six hits (or all of them,
   * when there are fewer) joined by a blank line; at least one and at most six
   * lines are shown.
   */
  lemma MatchShowsFirstSix(query: string, text: string)
    requires exists line :: line in SplitOn(text, LineSeparator) && Contains(Lower(line), Lower(query))
    ensures var shown := Take(Hits(query, text), MaxShown);
            && 1 <= |shown| <= MaxShown
            && shown <= Hits(query, text)
            && SearchResume(query, text) == Join(shown, ShownSeparator)
  {
    HitsAreMatchingLines(query, text);
  }

  /** The empty query occurs in every line, so it shows the first six lines of the text. */
  lemma {:induction false} EmptyQueryShowsFirstLines(text: string)
    ensures SearchResume("", text) == Join(Take(SplitOn(text, LineSeparator), MaxShown), ShownSeparator)
  {
    var lines := SplitOn(text, LineSeparator);
    assert Lower("") == "";
    forall i | 0 <= i < |lines|
      ensures MatchesQuery("")(lines[i])
    {
      assert StartsWith(Lower(lines[i]), "");
    }
    FilterKeepsAll(lines, MatchesQuery(""));
  }

  /** The search ignores the case of the query. */
  lemma QueryCaseIgnored(query: string, text: string)
    ensures SearchResume(query, text) == SearchResume(Lower(query), text)
  {
    LowerIdempotent(query);
  }

  /** A one-line résumé that matches the query is shown exactly as it is. */
  lemma SingleMatchingLineShown(query: string, line: string)
    requires LineSeparator !in line
    requires Contains(Lower(line), Lower(query))
    ensures Hits(query, line) == [line]
    ensures SearchResume(query, line) == line
  {
    var p := MatchesQuery(Lower(query));
    SplitWithoutSeparator(line, LineSeparator);
    assert p(line);
    assert Filter([line], p) == [line] + Filter([], p);
  }

  /**
   * The fixed message is not a reliable "nothing found" signal: a résumé whose
   * only line is that message, searched for "no", has a hit and still gives
   * the same answer as a search that finds nothing.
   */
  lemma MessageAlsoShownForAMatch()
    ensures Hits("no", NoMatches) != []
    ensures SearchResume("no", NoMatches) == NoMatches
  {
    assert Lower("no") == "no";
    var lowered := Lower(NoMatches);
    assert lowered[0] == 'n' && lowered[1] == 'o';
    assert StartsWith(lowered, "no");
    SingleMatchingLineShown("no", NoMatches);
  }
}
