/**
 * Passage comments in a Survex/Therion file: a block opened by the format's
 * `data passage` line holds "station comment" lines, read into a map from
 * station name to comment; the comments are then merged into the stations
 * of the survey as "passage :: leg-line comment".
 */
module SurvexTherionPassages {
  import opened Wrappers
  import opened Text
  import opened Legs
  import opened SurveyModel
  import opened SurveyFormats

  // ---- parsePassageData -----------------------------------------------------

  /** The reader's state between lines: inside a passage block or not, and the comments read so far. */
  datatype Scan = Scan(inBlock: bool, comments: map<string, string>)

  /** The start of any data command of the format: its command character and "data ". */
  function DataCommandPrefix(syntax: Syntax): string
  {
    syntax.commandChar + "data "
  }

  /** A line inside the block that is not an entry: a comment, a command or an extend line. */
  predicate IsPassedOverInBlock(trimmed: string)
  {
    StartsWith(trimmed, ";") || StartsWith(trimmed, "#") || StartsWith(trimmed, "*") || StartsWith(trimmed, "extend")
  }

  /**
   * One line: blank lines change nothing; the passage prefix opens the
   * block; inside the block another data command closes it, passed-over
   * lines change nothing, and a line of at least two tokens maps its first
   * token to the trimmed rest, replacing an earlier comment of that name.
   */
  function PassageLine(syntax: Syntax, scan: Scan, line: string): (r: Scan)
    ensures scan.comments.Keys <= r.comments.Keys
  {
    var trimmed := Trim(line);
    if trimmed == "" then scan
    else if StartsWith(trimmed, syntax.dataPassagePrefix) then scan.(inBlock := true)
    else if scan.inBlock && StartsWith(trimmed, DataCommandPrefix(syntax)) then scan.(inBlock := false)
    else if !scan.inBlock || IsPassedOverInBlock(trimmed) then scan
    else
      var parts := SplitWsOnce(trimmed);
      if |parts| == 2 then scan.(comments := scan.comments[parts[0] := Trim(parts[1])]) else scan
  }

  /** The lines read in order from outside any block. */
  function Scanned(syntax: Syntax, lines: seq<string>): (r: Scan)
    ensures lines == [] ==> r == Scan(false, map[])
  {
    if lines == [] then Scan(false, map[])
    else PassageLine(syntax, Scanned(syntax, lines[..|lines| - 1]), lines[|lines| - 1])
  }

  /** parsePassageData: the comments of every passage block of the text, by station name. */
  function PassageData(syntax: Syntax, text: string): map<string, string>
  {
    Scanned(syntax, SplitChar(text, '\n')).comments
  }

  /** parsePassageData, line by line. */
  method ParsePassageData(text: string, syntax: Syntax) returns (passageComments: map<string, string>)
    ensures passageComments == PassageData(syntax, text)
  {
    var lines := SplitChar(text, '\n');
    passageComments := map[];
    var inPassageBlock := false;
    for i := 0 to |lines|
      invariant Scan(inPassageBlock, passageComments) == Scanned(syntax, lines[..i])
    {
      assert lines[..i + 1][..i] == lines[..i];
      var trimmed := Trim(lines[i]);
      if trimmed == "" {
        continue;
      }
      if StartsWith(trimmed, syntax.dataPassagePrefix) {
        inPassageBlock := true;
        continue;
      }
      if inPassageBlock && StartsWith(trimmed, DataCommandPrefix(syntax)) && !StartsWith(trimmed, syntax.dataPassagePrefix) {
        inPassageBlock := false;
        continue;
      }
      if inPassageBlock {
        if IsPassedOverInBlock(trimmed) {
          continue;
        }
        var parts := SplitWsOnce(trimmed);
        if |parts| == 2 {
          passageComments := passageComments[parts[0] := Trim(parts[1])];
        }
      }
    }
    assert lines[..|lines|] == lines;
  }

  /** Outside a block only the passage prefix does anything, and it reads no comment. */
  lemma OutsideBlockReadsNothing(syntax: Syntax, scan: Scan, line: string)
    requires !scan.inBlock
    ensures PassageLine(syntax, scan, line).comments == scan.comments
    ensures PassageLine(syntax, scan, line).inBlock <==> Trim(line) != "" && StartsWith(Trim(line), syntax.dataPassagePrefix)
  {
  }

  /** Inside a block, a data command other than the passage prefix ends the block without reading a comment. */
  lemma DataCommandEndsBlock(syntax: Syntax, scan: Scan, line: string)
    requires scan.inBlock && Trim(line) != ""
    requires StartsWith(Trim(line), DataCommandPrefix(syntax)) && !StartsWith(Trim(line), syntax.dataPassagePrefix)
    ensures PassageLine(syntax, scan, line) == scan.(inBlock := false)
  {
  }

  /**
   * An entry as the exporter writes it: a station name without white space,
   * a tab, a non-empty comment with nothing to trim, and no prefix the
   * reader treats otherwise.
   */
  predicate IsEntry(syntax: Syntax, name: string, comment: string)
  {
    var line := name + "\t" + comment;
    name != "" && !IsBlank(name[0]) && (forall k :: 0 <= k < |name| ==> !IsSpace(name[k])) &&
    comment != "" && IsTrimmed(comment) &&
    !IsPassedOverInBlock(line) && !StartsWith(line, DataCommandPrefix(syntax)) && !StartsWith(line, syntax.dataPassagePrefix)
  }

  /** An entry line inside the block maps its name to its comment, replacing an earlier one. */
  lemma EntryRead(syntax: Syntax, scan: Scan, name: string, comment: string)
    requires scan.inBlock && IsEntry(syntax, name, comment)
    ensures PassageLine(syntax, scan, name + "\t" + comment) == scan.(comments := scan.comments[name := comment])
  {
    hide SplitWsOnce, Trim;
    EntrySplit(name, comment);
    TrimOfTrimmed(comment);
  }

  /** An entry line is trimmed and splits into its name and its comment. */
  lemma EntrySplit(name: string, comment: string)
    requires name != "" && !IsBlank(name[0]) && forall k :: 0 <= k < |name| ==> !IsSpace(name[k])
    requires comment != "" && IsTrimmed(comment)
    ensures Trim(name + "\t" + comment) == name + "\t" + comment
    ensures SplitWsOnce(name + "\t" + comment) == [name, comment]
  {
    var line := name + "\t" + comment;
    assert IsTrimmed(line) by {
      assert line[0] == name[0] && line[|line| - 1] == comment[|comment| - 1];
    }
    TrimOfTrimmed(line);
    hide Trim, SkipSpaces;
    WordLengthOfWord(name, "\t" + comment);
    assert line[..|name|] == name;
    assert line[|name|..] == "\t" + comment;
    SkipTab(comment);
  }

  /** The run of white space after the name is the one tab. */
  lemma SkipTab(comment: string)
    requires comment != "" && IsTrimmed(comment)
    ensures SkipSpaces("\t" + comment) == comment
  {
    if IsSpace(comment[0]) {
      SpaceIsBlank(comment[0]);
    }
    assert ("\t" + comment)[1..] == comment;
  }

  /** The entry lines name + tab + comment, in order. */
  function EntryLines(entries: seq<(string, string)>): (r: seq<string>)
    ensures |r| == |entries|
    ensures forall k :: 0 <= k < |r| ==> r[k] == entries[k].0 + "\t" + entries[k].1
  {
    if entries == [] then [] else EntryLines(entries[..|entries| - 1]) + [entries[|entries| - 1].0 + "\t" + entries[|entries| - 1].1]
  }

  /** The entries as a map, a later entry for a name replacing an earlier one. */
  function EntryMap(entries: seq<(string, string)>): (r: map<string, string>)
    ensures forall k :: 0 <= k < |entries| ==> entries[k].0 in r
  {
    if entries == [] then map[]
    else EntryMap(entries[..|entries| - 1])[entries[|entries| - 1].0 := entries[|entries| - 1].1]
  }

  /** In the map, each name holds the comment of its last entry. */
  lemma {:induction false} EntryMapLastWins(entries: seq<(string, string)>, k: nat)
    requires k < |entries|
    requires forall j :: k < j < |entries| ==> entries[j].0 != entries[k].0
    ensures EntryMap(entries)[entries[k].0] == entries[k].1
  {
    var n := |entries|;
    if k < n - 1 {
      var front := entries[..n - 1];
      assert front[k] == entries[k];
      forall j | k < j < |front| ensures front[j].0 != front[k].0 {
        assert front[j] == entries[j];
      }
      EntryMapLastWins(front, k);
    }
  }

  /**
   * A block as the exporter writes it, a passage line followed by entry
   * lines, read after any lines that leave the reader outside a block,
   * yields exactly the entries, the last comment of a name winning.
   */
  lemma {:induction false} BlockRead(syntax: Syntax, header: string, entries: seq<(string, string)>)
    requires Trim(header) != "" && StartsWith(Trim(header), syntax.dataPassagePrefix)
    requires forall k :: 0 <= k < |entries| ==> IsEntry(syntax, entries[k].0, entries[k].1)
    ensures Scanned(syntax, [header] + EntryLines(entries)) == Scan(true, EntryMap(entries))
  {
    var lines := [header] + EntryLines(entries);
    if entries == [] {
      assert lines[..0] == [];
    } else {
      var n := |entries|;
      var front := entries[..n - 1];
      assert lines[..|lines| - 1] == [header] + EntryLines(front);
      BlockRead(syntax, header, front);
      EntryRead(syntax, Scan(true, EntryMap(front)), entries[n - 1].0, entries[n - 1].1);
    }
  }

  // ---- mergePassageComments -------------------------------------------------

  const CommentSeparator: string := " :: "

  /** The passage comment alone when the station has no comment (or a blank one), else "passage :: existing". */
  function MergedComment(passage: string, existing: string): (r: string)
    ensures Trim(existing) == "" ==> r == passage
    ensures Trim(existing) != "" ==> r == passage + CommentSeparator + existing
  {
    if Trim(existing) == "" then passage else passage + CommentSeparator + existing
  }

  /** The passage comment can be read back from the front of the merged comment, and the leg-line comment from its end. */
  lemma MergedCommentKeepsBoth(passage: string, existing: string)
    ensures MergedComment(passage, existing)[..|passage|] == passage
    ensures Trim(existing) != "" ==>
      MergedComment(passage, existing)[|passage| + |CommentSeparator|..] == existing
  {
  }

  /** The station a name of the map reaches: the first station of that name. */
  predicate IsTarget(s: SurveyState, passage: map<string, string>, st: StationId)
  {
    st in s.names && s.names[st] in passage && s.StationByName(s.names[st]) == Some(st)
  }

  /**
   * mergePassageComments on the survey value: each station found by the
   * name of an entry has its comment merged with that entry's comment;
   * names with no station change nothing, nor does anything else change.
   */
  function MergedComments(s: SurveyState, passage: map<string, string>): (r: map<StationId, string>)
    ensures r.Keys == s.comments.Keys
    ensures forall st :: st in s.comments && !IsTarget(s, passage, st) ==> r[st] == s.comments[st]
  {
    map st | st in s.comments ::
      if IsTarget(s, passage, st) then MergedComment(passage[s.names[st]], s.comments[st]) else s.comments[st]
  }

  /** A name of the map whose station exists has its passage comment at the front of that station's comment. */
  lemma MergedAtStation(s: SurveyState, passage: map<string, string>, name: string)
    requires s.Valid() && name in passage && s.StationByName(name).Some?
    ensures var st := s.StationByName(name).value;
      st in MergedComments(s, passage) &&
      MergedComments(s, passage)[st] == MergedComment(passage[name], s.comments[st])
  {
    var st := s.StationByName(name).value;
    assert st in s.onward;
  }

  /**
   * The comments with the names outside `todo` merged: the state of the
   * merge while it walks over the entries.
   */
  function PartlyMerged(s: SurveyState, passage: map<string, string>, todo: set<string>): (r: map<StationId, string>)
    ensures r.Keys == s.comments.Keys
  {
    map st | st in s.comments ::
      if IsTarget(s, passage, st) && s.names[st] !in todo then MergedComment(passage[s.names[st]], s.comments[st])
      else s.comments[st]
  }

  /** Merging a name that finds no station changes nothing. */
  lemma PartlyMergedUnfound(s: SurveyState, passage: map<string, string>, todo: set<string>, name: string)
    requires name in todo && s.StationByName(name).None?
    ensures PartlyMerged(s, passage, todo - {name}) == PartlyMerged(s, passage, todo)
  {
    hide SurveyState.StationByName;
    var before := PartlyMerged(s, passage, todo);
    var after := PartlyMerged(s, passage, todo - {name});
    forall st | st in s.comments ensures after[st] == before[st] {
      assert IsTarget(s, passage, st) ==> s.names[st] != name;
    }
  }

  /** Merging a name that finds a station changes that station's comment, which was not merged before, and no other. */
  lemma PartlyMergedFound(s: SurveyState, passage: map<string, string>, todo: set<string>, name: string, st: StationId)
    requires name in todo && name in passage && s.StationByName(name) == Some(st) && st in s.comments
    ensures PartlyMerged(s, passage, todo)[st] == s.comments[st]
    ensures PartlyMerged(s, passage, todo - {name}) ==
      PartlyMerged(s, passage, todo)[st := MergedComment(passage[name], s.comments[st])]
  {
    hide SurveyState.StationByName, MergedComment;
    var before := PartlyMerged(s, passage, todo);
    var after := PartlyMerged(s, passage, todo - {name});
    var expected := before[st := MergedComment(passage[name], s.comments[st])];
    assert after == expected by {
      forall other | other in s.comments ensures after[other] == expected[other] {
        assert IsTarget(s, passage, other) && s.names[other] == name ==> other == st;
      }
    }
  }

  /** The station a name finds is one of the survey's. */
  lemma FoundStationExists(s: SurveyState, name: string)
    requires s.Valid()
    ensures s.StationByName(name).Some? ==> s.StationByName(name).value in s.comments
  {
  }

  /** mergePassageComments, on the survey object; the entries are taken in any order. */
  method MergePassageComments(survey: Survey, passageComments: map<string, string>)
    requires survey.Valid()
    modifies survey`comments
    ensures survey.comments == MergedComments(old(survey.State()), passageComments)
  {
    hide PartlyMerged, MergedComments, SurveyState.StationByName, MergedComment;
    ghost var s := survey.State();
    var todo := passageComments.Keys;
    PartlyMergedAtStart(s, passageComments);
    while todo != {}
      invariant todo <= passageComments.Keys
      invariant survey.names == s.names && survey.onward == s.onward && survey.origin == s.origin
      invariant survey.comments == PartlyMerged(s, passageComments, todo)
      decreases todo
    {
      var stationName :| stationName in todo;
      var passageComment := passageComments[stationName];
      StationByNameOfSameNames(survey.State(), s, stationName);
      var station := survey.State().StationByName(stationName);
      FoundStationExists(s, stationName);
      if station.None? {
        PartlyMergedUnfound(s, passageComments, todo, stationName);
      } else {
        var st := station.value;
        PartlyMergedFound(s, passageComments, todo, stationName, st);
        var existingComment := survey.comments[st];
        if Trim(existingComment) == "" {
          survey.SetComment(st, passageComment);
        } else {
          survey.SetComment(st, passageComment + CommentSeparator + existingComment);
        }
      }
      todo := todo - {stationName};
    }
    PartlyMergedAtEnd(s, passageComments);
  }

  lemma PartlyMergedAtStart(s: SurveyState, passage: map<string, string>)
    ensures PartlyMerged(s, passage, passage.Keys) == s.comments
  {
  }

  lemma PartlyMergedAtEnd(s: SurveyState, passage: map<string, string>)
    ensures PartlyMerged(s, passage, {}) == MergedComments(s, passage)
  {
  }
}
