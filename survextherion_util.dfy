/**
 * The pieces the Survex and Therion exporters share: the input lines naming
 * drawing files, the trip metadata, the passage-comment block with each
 * commented station, and the extended-elevation commands. The centreline
 * entries are in SurvexTherionEntries.
 *
 * Each text is built by a method appending to a string, as the source's
 * StringBuilder does, and proved equal to a function of the survey; the
 * lemmas then say what the text means: which reader gets what back from it.
 */
module SurvexTherionUtil {
  import opened Wrappers
  import opened Text
  import opened Legs
  import opened SurveyModel
  import opened SurveyFormats
  import opened SurvexTherionTeam
  import opened SurvexTherionPassages

  // ---- getInputText -----------------------------------------------------------

  const InputPrefix: string := "input "

  /** The line naming one drawing file, line feed left out. */
  function InputLine(filename: string): string
  {
    InputPrefix + "\"" + filename + "\""
  }

  function InputLines(files: seq<string>): (r: seq<string>)
    ensures |r| == |files|
    ensures forall k :: 0 <= k < |r| ==> r[k] == InputLine(files[k])
  {
    seq(|files|, k requires 0 <= k < |files| => InputLine(files[k]))
  }

  /** The input lines of the files, in order; nothing at all for no files. */
  function InputText(files: seq<string>): (r: string)
    ensures r == "" <==> files == []
  {
    LinesEmpty(InputLines(files));
    Lines(InputLines(files))
  }

  /** getInputText. */
  method GetInputText(files: seq<string>) returns (text: string)
    ensures text == InputText(files)
  {
    if files == [] {
      return "";
    }
    text := "";
    for i := 0 to |files|
      invariant text == Lines(InputLines(files[..i]))
    {
      LinesAppend(InputLines(files[..i]), InputLine(files[i]));
      assert InputLines(files[..i + 1]) == InputLines(files[..i]) + [InputLine(files[i])];
      text := text + InputPrefix + "\"" + files[i] + "\"" + "\n";
    }
    assert files[..|files|] == files;
  }

  /**
   * Cut at line feeds, the input text has one line per file, and reading
   * the quoted value after "input " gives each file name back.
   */
  lemma InputTextReadBack(files: seq<string>, k: nat)
    requires forall j :: 0 <= j < |files| ==> '\n' !in files[j]
    requires k < |files|
    ensures SplitChar(InputText(files), '\n') == InputLines(files)
    ensures QuotedValue(SplitChar(InputText(files), '\n')[k], InputPrefix) == files[k]
  {
    InputTextLines(files);
    InputLineRead(files[k]);
  }

  lemma InputTextLines(files: seq<string>)
    requires forall j :: 0 <= j < |files| ==> '\n' !in files[j]
    requires files != []
    ensures SplitChar(InputText(files), '\n') == InputLines(files)
  {
    var ls := InputLines(files);
    forall j | 0 <= j < |ls| ensures '\n' !in ls[j] {
      assert ls[j] == InputPrefix + "\"" + files[j] + "\"";
    }
    assert ls[|ls| - 1] != "";
    hide InputLines;
    SplitCharLines(ls);
  }

  lemma InputLineRead(filename: string)
    ensures QuotedValue(InputLine(filename), InputPrefix) == filename
  {
    QuotedValueOfQuoted(InputPrefix, "", filename);
    assert InputPrefix + "" + "\"" + filename + "\"" == InputLine(filename);
  }

  // ---- formatComment ----------------------------------------------------------

  predicate IsBreak(c: char) { c == '\r' || c == '\n' }

  /** A backslash followed by the letter n: what a run of line breaks becomes. */
  const EscapedBreak: string := "\\n"

  function SkipBreaks(s: string): (r: string)
    ensures |r| <= |s|
    ensures s != [] && IsBreak(s[0]) ==> |r| < |s|
    ensures r == [] || !IsBreak(r[0])
  {
    if s != [] && IsBreak(s[0]) then SkipBreaks(s[1..]) else s
  }

  /**
   * formatComment: every maximal run of carriage returns and line feeds
   * (the regular expression (\r|\n|\r\n)+) is replaced by a backslash and
   * an n, so the comment fits on one line.
   */
  function FormatComment(comment: string): (r: string)
    ensures forall k :: 0 <= k < |r| ==> !IsBreak(r[k])
    decreases |comment|
  {
    if comment == [] then []
    else if IsBreak(comment[0]) then EscapedBreak + FormatComment(SkipBreaks(comment))
    else [comment[0]] + FormatComment(comment[1..])
  }

  /** A comment on one line is written as it is. */
  lemma {:induction false} FormatCommentWithoutBreaks(comment: string)
    requires forall k :: 0 <= k < |comment| ==> !IsBreak(comment[k])
    ensures FormatComment(comment) == comment
  {
    if comment != [] {
      FormatCommentWithoutBreaks(comment[1..]);
    }
  }

  /** Formatting twice is formatting once. */
  lemma FormatCommentIdempotent(comment: string)
    ensures FormatComment(FormatComment(comment)) == FormatComment(comment)
  {
    FormatCommentWithoutBreaks(FormatComment(comment));
  }

  /**
   * A run of line breaks between two pieces of text, however long and
   * whatever mix of CR and LF, becomes exactly one escaped break.
   */
  lemma {:induction false} FormatCommentRun(line: string, run: string, rest: string)
    requires forall k :: 0 <= k < |line| ==> !IsBreak(line[k])
    requires run != [] && forall k :: 0 <= k < |run| ==> IsBreak(run[k])
    requires rest == [] || !IsBreak(rest[0])
    ensures FormatComment(line + run + rest) == line + EscapedBreak + FormatComment(rest)
  {
    if line == [] {
      assert line + run + rest == run + rest;
      SkipRun(run, rest);
    } else {
      assert (line + run + rest)[1..] == line[1..] + run + rest;
      FormatCommentRun(line[1..], run, rest);
    }
  }

  lemma {:induction false} SkipRun(run: string, rest: string)
    requires forall k :: 0 <= k < |run| ==> IsBreak(run[k])
    requires rest == [] || !IsBreak(rest[0])
    ensures SkipBreaks(run + rest) == rest
  {
    if run != [] {
      assert (run + rest)[1..] == run[1..] + rest;
      SkipRun(run[1..], rest);
    } else {
      assert run + rest == rest;
    }
  }

  // ---- commentMultiline -------------------------------------------------------

  function CommentedLines(commentChar: char, lines: seq<string>): (r: seq<string>)
    ensures |r| == |lines|
    ensures forall k :: 0 <= k < |r| ==> r[k] == [commentChar] + lines[k]
  {
    seq(|lines|, k requires 0 <= k < |lines| => [commentChar] + lines[k])
  }

  /** Every line of the text, cut at line feeds as String.split does, behind the comment character. */
  function CommentedText(raw: string, commentChar: char): string
  {
    Lines(CommentedLines(commentChar, SplitChar(raw, '\n')))
  }

  /** commentMultiline. */
  method CommentMultiline(raw: string, commentChar: char) returns (text: string)
    ensures text == CommentedText(raw, commentChar)
  {
    var lines := SplitChar(raw, '\n');
    text := "";
    for i := 0 to |lines|
      invariant text == Lines(CommentedLines(commentChar, lines[..i]))
    {
      LinesAppend(CommentedLines(commentChar, lines[..i]), [commentChar] + lines[i]);
      assert CommentedLines(commentChar, lines[..i + 1]) == CommentedLines(commentChar, lines[..i]) + [[commentChar] + lines[i]];
      text := text + [commentChar] + lines[i] + "\n";
    }
    assert lines[..|lines|] == lines;
  }

  /**
   * Cut at line feeds again, the commented text has one line per line of
   * the original, each the comment character followed by that line.
   */
  lemma CommentedTextReadBack(raw: string, commentChar: char)
    requires commentChar != '\n'
    requires SplitChar(raw, '\n') != []
    ensures SplitChar(CommentedText(raw, commentChar), '\n') == CommentedLines(commentChar, SplitChar(raw, '\n'))
  {
    var lines := SplitChar(raw, '\n');
    var ls := CommentedLines(commentChar, lines);
    SplitCharNoSeparator(raw, '\n');
    forall k | 0 <= k < |ls| ensures '\n' !in ls[k] {
      assert ls[k] == [commentChar] + lines[k];
      assert '\n' !in lines[k];
    }
    assert ls[|ls| - 1] != "";
    hide CommentedLines, SplitChar;
    SplitCharLines(ls);
  }

  // ---- getMetadata ------------------------------------------------------------

  /** SimpleDateFormat("yyyy.MM.dd").format: the calendar and time zone are not modelled. */
  type DateFormatter = Date -> string

  /** formatDate; substring(5) of it is the formatted date alone. */
  function FormatDate(format: DateFormatter, date: Date): (r: string)
    ensures |r| >= 5 && r[5..] == format(date)
  {
    "date " + format(date)
  }

  const InstrumentCommand: string := "instrument inst "

  /** The instrument line: commented out, with an empty name, when the trip has no instrument. */
  function InstrumentLine(syntax: Syntax, trip: Trip): string
  {
    if trip.instrument != "" then syntax.commandMarker + InstrumentCommand + "\"" + trip.instrument + "\"\n"
    else [syntax.commentChar] + syntax.commandMarker + InstrumentCommand + "\"\"\n"
  }

  /**
   * The instrument line is commented out exactly when there is no
   * instrument; with the comment character and line feed taken off, the
   * quoted value after the command is the instrument.
   */
  lemma InstrumentLineReadBack(syntax: Syntax, trip: Trip)
    requires (syntax.commandMarker + InstrumentCommand)[0] != syntax.commentChar
    ensures trip.instrument != "" ==> var line := InstrumentLine(syntax, trip);
      line[0] != syntax.commentChar &&
      QuotedValue(line[..|line| - 1], syntax.commandMarker + InstrumentCommand) == trip.instrument
    ensures trip.instrument == "" ==> var line := InstrumentLine(syntax, trip);
      line[0] == syntax.commentChar &&
      QuotedValue(line[1..|line| - 1], syntax.commandMarker + InstrumentCommand) == ""
  {
    var command := syntax.commandMarker + InstrumentCommand;
    QuotedCommand(command, trip.instrument);
    if trip.instrument != "" {
      InstrumentLineOfInstrument(syntax, trip);
    } else {
      InstrumentLineWithoutInstrument(syntax, trip);
    }
  }

  lemma InstrumentLineOfInstrument(syntax: Syntax, trip: Trip)
    requires (syntax.commandMarker + InstrumentCommand)[0] != syntax.commentChar
    requires trip.instrument != ""
    ensures var line := InstrumentLine(syntax, trip);
      line[0] != syntax.commentChar && line[..|line| - 1] == syntax.commandMarker + InstrumentCommand + "\"" + trip.instrument + "\""
  {
    var command := syntax.commandMarker + InstrumentCommand;
    var line := InstrumentLine(syntax, trip);
    var quoted := command + "\"" + trip.instrument + "\"";
    assert line == quoted + "\n";
    hide InstrumentLine;
    assert line[0] == command[0];
    assert line[..|line| - 1] == quoted;
  }

  lemma InstrumentLineWithoutInstrument(syntax: Syntax, trip: Trip)
    requires trip.instrument == ""
    ensures var line := InstrumentLine(syntax, trip);
      line[0] == syntax.commentChar && line[1..|line| - 1] == syntax.commandMarker + InstrumentCommand + "\"" + trip.instrument + "\""
  {
    var command := syntax.commandMarker + InstrumentCommand;
    var line := InstrumentLine(syntax, trip);
    var quoted := command + "\"" + trip.instrument + "\"";
    assert line == [syntax.commentChar] + quoted + "\n";
    hide InstrumentLine;
    assert line[1..|line| - 1] == quoted;
  }

  lemma QuotedCommand(command: string, value: string)
    ensures QuotedValue(command + "\"" + value + "\"", command) == value
  {
    QuotedValueOfQuoted(command, "", value);
    assert command + "" + "\"" + value + "\"" == command + "\"" + value + "\"";
  }

  const ExploDatePlaceholder: string := "yyyy.mm.dd"

  /**
   * The exploration date line: the survey date when the trip says they are
   * the same, else the trip's exploration date, else a commented-out
   * placeholder.
   */
  function ExploDateLine(syntax: Syntax, format: DateFormatter, trip: Trip): string
  {
    var command := syntax.commandMarker + syntax.explorationDateKeyword;
    if trip.explorationDateSameAsSurvey then command + FormatDate(format, trip.date)[5..] + "\n"
    else if trip.explorationDate.Some? then command + FormatDate(format, trip.explorationDate.value)[5..] + "\n"
    else [syntax.commentChar] + command + ExploDatePlaceholder + "\n"
  }

  /** The date the exploration took place on, as far as the trip records one. */
  function ExplorationDate(trip: Trip): Option<Date>
  {
    if trip.explorationDateSameAsSurvey then Some(trip.date) else trip.explorationDate
  }

  /**
   * The exploration date line states the trip's exploration date when it
   * has one, and is commented out exactly when it has none.
   */
  lemma ExploDateLineOf(syntax: Syntax, format: DateFormatter, trip: Trip)
    requires (syntax.commandMarker + syntax.explorationDateKeyword) != ""
    requires (syntax.commandMarker + syntax.explorationDateKeyword)[0] != syntax.commentChar
    ensures var line := ExploDateLine(syntax, format, trip);
      var command := syntax.commandMarker + syntax.explorationDateKeyword;
      (ExplorationDate(trip).Some? ==> line == command + format(ExplorationDate(trip).value) + "\n") &&
      (ExplorationDate(trip).None? ==> line == [syntax.commentChar] + command + ExploDatePlaceholder + "\n") &&
      (line[0] == syntax.commentChar <==> ExplorationDate(trip).None?)
  {
    var command := syntax.commandMarker + syntax.explorationDateKeyword;
    var line := ExploDateLine(syntax, format, trip);
    if ExplorationDate(trip).Some? {
      assert line == command + format(ExplorationDate(trip).value) + "\n";
      assert line[0] == command[0];
    }
  }

  const TripCommentHeader: string := "Comment from SexyTopo trip information"

  /** The trip comments, after a blank line and a header, each line commented out; nothing without comments. */
  function TripComments(syntax: Syntax, trip: Trip): string
  {
    if trip.comments != "" then "\n" + [syntax.commentChar] + TripCommentHeader + "\n" + CommentedText(trip.comments, syntax.commentChar)
    else ""
  }

  /**
   * The trip metadata: the date, the instrument, the team lines, a blank
   * line, the exploration date, the explo-team lines and the trip comments;
   * nothing at all without a trip.
   */
  function Metadata(trip: Option<Trip>, syntax: Syntax, format: DateFormatter, teamLines: string, exploTeamLines: string): (r: string)
    ensures r == "" <==> trip.None?
    ensures trip.Some? ==> StartsWith(r, syntax.commandMarker + "date " + format(trip.value.date) + "\n")
  {
    match trip
    case None => ""
    case Some(t) =>
      syntax.commandMarker + FormatDate(format, t.date) + "\n" + InstrumentLine(syntax, t) + teamLines + "\n" +
      ExploDateLine(syntax, format, t) + exploTeamLines + TripComments(syntax, t)
  }

  /** getMetadata. */
  method GetMetadata(survey: Survey, syntax: Syntax, format: DateFormatter, teamLines: string, exploTeamLines: string)
    returns (text: string)
    ensures text == Metadata(survey.trip, syntax, format, teamLines, exploTeamLines)
  {
    text := "";
    if survey.trip.Some? {
      var trip := survey.trip.value;
      var marker := syntax.commandMarker;
      var commentChar := syntax.commentChar;
      var dateLine := marker + FormatDate(format, trip.date) + "\n";
      var instrumentLine;
      if trip.instrument != "" {
        instrumentLine := marker + InstrumentCommand + "\"" + trip.instrument + "\"\n";
      } else {
        instrumentLine := [commentChar] + marker + InstrumentCommand + "\"\"\n";
      }
      assert instrumentLine == InstrumentLine(syntax, trip);
      var exploLine;
      if trip.explorationDateSameAsSurvey {
        exploLine := marker + syntax.explorationDateKeyword + FormatDate(format, trip.date)[5..] + "\n";
      } else if trip.explorationDate.Some? {
        exploLine := marker + syntax.explorationDateKeyword + FormatDate(format, trip.explorationDate.value)[5..] + "\n";
      } else {
        exploLine := [commentChar] + marker + syntax.explorationDateKeyword + ExploDatePlaceholder + "\n";
      }
      assert exploLine == ExploDateLine(syntax, format, trip);
      var comments := "";
      if trip.comments != "" {
        var commented := CommentMultiline(trip.comments, commentChar);
        comments := "\n" + [commentChar] + TripCommentHeader + "\n" + commented;
      }
      assert comments == TripComments(syntax, trip);
      hide InstrumentLine, ExploDateLine, TripComments, FormatDate;
      text := dateLine + instrumentLine + teamLines + "\n" + exploLine + exploTeamLines + comments;
    }
  }

  // ---- collectStationsWithComments ---------------------------------------------

  /** Station.hasComment: the empty string stands for no comment. */
  predicate HasComment(s: SurveyState, st: StationId)
  {
    st in s.comments && s.comments[st] != ""
  }

  /**
   * collectStationsWithComments: the station when it has a comment, then
   * the same for the destination of each connected onward leg in turn;
   * `rem` holds the stations not yet entered, as in Reach.
   */
  function Collected(s: SurveyState, st: StationId, rem: set<StationId>): (r: seq<StationId>)
    ensures forall k :: 0 <= k < |r| ==> r[k] in s.onward && HasComment(s, r[k])
    decreases rem, 0
  {
    if st !in rem || st !in s.onward then []
    else (if HasComment(s, st) then [st] else []) + CollectedLegs(s, s.onward[st], rem - {st})
  }

  function CollectedLegs(s: SurveyState, legs: seq<Leg>, rem: set<StationId>): (r: seq<StationId>)
    ensures forall k :: 0 <= k < |r| ==> r[k] in s.onward && HasComment(s, r[k])
    ensures legs == [] ==> r == []
    decreases rem, |legs| + 1
  {
    if legs == [] then [] else CollectedLeg(s, legs[0], rem) + CollectedLegs(s, legs[1..], rem)
  }

  function CollectedLeg(s: SurveyState, leg: Leg, rem: set<StationId>): (r: seq<StationId>)
    ensures forall k :: 0 <= k < |r| ==> r[k] in s.onward && HasComment(s, r[k])
    decreases rem, 1
  {
    match leg.destination
    case Some(d) => Collected(s, d, rem)
    case None => []
  }

  lemma CollectedLegsAt(s: SurveyState, legs: seq<Leg>, i: nat, rem: set<StationId>)
    requires i < |legs|
    ensures CollectedLegs(s, legs[i..], rem) == CollectedLeg(s, legs[i], rem) + CollectedLegs(s, legs[i + 1..], rem)
  {
    assert legs[i..][1..] == legs[i + 1..];
  }

  /** The stations of ss that have a comment, in the order of ss. */
  function WithComments(s: SurveyState, ss: seq<StationId>): (r: seq<StationId>)
    ensures forall st :: st in r <==> st in ss && HasComment(s, st)
  {
    if ss == [] then [] else (if HasComment(s, ss[0]) then [ss[0]] else []) + WithComments(s, ss[1..])
  }

  lemma {:induction false} WithCommentsAppend(s: SurveyState, a: seq<StationId>, b: seq<StationId>)
    ensures WithComments(s, a + b) == WithComments(s, a) + WithComments(s, b)
  {
    if a == [] {
      assert a + b == b;
    } else {
      assert (a + b)[1..] == a[1..] + b;
      WithCommentsAppend(s, a[1..], b);
    }
  }

  /** The recursive collection is the pre-order traversal with the stations without a comment left out. */
  lemma {:induction false} CollectedIsFiltered(s: SurveyState, st: StationId, rem: set<StationId>)
    ensures Collected(s, st, rem) == WithComments(s, Reach(s.onward, st, rem))
    decreases rem, 0
  {
    if st in rem && st in s.onward {
      CollectedLegsIsFiltered(s, s.onward[st], rem - {st});
      WithCommentsAppend(s, [st], ReachLegs(s.onward, s.onward[st], rem - {st}));
    }
  }

  lemma {:induction false} CollectedLegsIsFiltered(s: SurveyState, legs: seq<Leg>, rem: set<StationId>)
    ensures CollectedLegs(s, legs, rem) == WithComments(s, ReachLegs(s.onward, legs, rem))
    decreases rem, |legs| + 1
  {
    if legs != [] {
      var first := match legs[0].destination case Some(d) => Reach(s.onward, d, rem) case None => [];
      assert CollectedLegs(s, legs, rem) == CollectedLeg(s, legs[0], rem) + CollectedLegs(s, legs[1..], rem);
      if legs[0].destination.Some? {
        CollectedIsFiltered(s, legs[0].destination.value, rem);
      }
      CollectedLegsIsFiltered(s, legs[1..], rem);
      WithCommentsAppend(s, first, ReachLegs(s.onward, legs[1..], rem));
    }
  }

  /** The commented stations of the survey, from the origin. */
  function CommentedStations(s: SurveyState): (r: seq<StationId>)
    ensures forall k :: 0 <= k < |r| ==> r[k] in s.onward && HasComment(s, r[k])
  {
    Collected(s, s.origin, s.onward.Keys)
  }

  /**
   * The commented stations are the survey's stations in pre-order with the
   * ones without a comment left out: a station is among them exactly when
   * it belongs to the survey and has a comment.
   */
  lemma CommentedStationsExactly(s: SurveyState)
    ensures CommentedStations(s) == WithComments(s, s.Stations())
    ensures forall st :: st in CommentedStations(s) <==> st in s.Stations() && HasComment(s, st)
  {
    CollectedIsFiltered(s, s.origin, s.onward.Keys);
  }

  /** collectStationsWithComments, appending to the result list. */
  method CollectStationsWithComments(s: SurveyState, st: StationId, rem: set<StationId>, result: seq<StationId>)
    returns (result': seq<StationId>)
    ensures result' == result + Collected(s, st, rem)
    decreases rem
  {
    hide CollectedLegs, HasComment;
    result' := result;
    if st !in rem || st !in s.onward {
      return;
    }
    if HasComment(s, st) {
      result' := result' + [st];
    }
    var legs := s.onward[st];
    ghost var head := result';
    assert result + Collected(s, st, rem) == head + CollectedLegs(s, legs, rem - {st});
    hide Collected;
    for i := 0 to |legs|
      invariant result' + CollectedLegs(s, legs[i..], rem - {st}) == head + CollectedLegs(s, legs, rem - {st})
    {
      CollectedLegsAt(s, legs, i, rem - {st});
      match legs[i].destination {
        case Some(d) =>
          result' := CollectStationsWithComments(s, d, rem - {st}, result');
        case None =>
      }
    }
    assert legs[|legs|..] == [];
  }

  // ---- getStationCommentsData ---------------------------------------------------

  const PassageCommand: string := "data passage station ignoreall"

  /** Each station's name and its formatted comment. */
  function CommentEntries(s: SurveyState, stations: seq<StationId>): (r: seq<(string, string)>)
    requires forall k :: 0 <= k < |stations| ==> stations[k] in s.names && stations[k] in s.comments
    ensures |r| == |stations|
    ensures forall k :: 0 <= k < |r| ==> r[k] == (s.names[stations[k]], FormatComment(s.comments[stations[k]]))
  {
    seq(|stations|, k requires 0 <= k < |stations| => (s.names[stations[k]], FormatComment(s.comments[stations[k]])))
  }

  /**
   * The passage block: nothing when no station has a comment; otherwise the
   * passage data command, a line of name, tab and formatted comment for
   * each commented station, and a blank line.
   */
  function StationCommentsData(s: SurveyState, syntax: Syntax): string
    requires s.Valid()
  {
    var stations := CommentedStations(s);
    if stations == [] then ""
    else Lines([syntax.commandMarker + PassageCommand] + EntryLines(CommentEntries(s, stations)) + [""])
  }

  /** getStationCommentsData. */
  method GetStationCommentsData(survey: Survey, syntax: Syntax) returns (text: string)
    requires survey.Valid()
    ensures text == StationCommentsData(survey.State(), syntax)
  {
    var s := survey.State();
    var stations := CollectStationsWithComments(s, s.origin, s.onward.Keys, []);
    assert stations == CommentedStations(s);
    if stations == [] {
      return "";
    }
    text := CommentBlock(s, syntax.commandMarker + PassageCommand, stations);
  }

  /** The block of a non-empty list of stations: the header, an entry line per station, a blank line. */
  method CommentBlock(s: SurveyState, header: string, stations: seq<StationId>) returns (text: string)
    requires forall k :: 0 <= k < |stations| ==> stations[k] in s.names && stations[k] in s.comments
    ensures text == Lines([header] + EntryLines(CommentEntries(s, stations)) + [""])
  {
    text := header + "\n";
    ghost var lines := [header];
    assert Lines(lines) == header + "\n" by { assert [header][1..] == []; }
    assert lines == [header] + EntryLines(CommentEntries(s, stations[..0]));
    hide Lines, EntryLines, CommentEntries;
    for i := 0 to |stations|
      invariant lines == [header] + EntryLines(CommentEntries(s, stations[..i]))
      invariant text == Lines(lines)
    {
      var line := s.names[stations[i]] + "\t" + FormatComment(s.comments[stations[i]]);
      CommentBlockStep(s, header, stations, i);
      LinesAppend(lines, line);
      lines := lines + [line];
      text := text + line + "\n";
    }
    assert stations[..|stations|] == stations;
    LinesAppend(lines, "");
    text := text + "\n";
  }

  /** One more station adds its entry line to the block. */
  lemma CommentBlockStep(s: SurveyState, header: string, stations: seq<StationId>, i: nat)
    requires forall k :: 0 <= k < |stations| ==> stations[k] in s.names && stations[k] in s.comments
    requires i < |stations|
    ensures [header] + EntryLines(CommentEntries(s, stations[..i + 1])) ==
      [header] + EntryLines(CommentEntries(s, stations[..i])) + [s.names[stations[i]] + "\t" + FormatComment(s.comments[stations[i]])]
  {
    var before := CommentEntries(s, stations[..i]);
    var after := CommentEntries(s, stations[..i + 1]);
    assert after == before + [(s.names[stations[i]], FormatComment(s.comments[stations[i]]))];
    assert EntryLines(after) == EntryLines(before) + [s.names[stations[i]] + "\t" + FormatComment(s.comments[stations[i]])];
  }

  /** With no commented station there is no block, and with one there is. */
  lemma StationCommentsDataEmpty(s: SurveyState, syntax: Syntax)
    requires s.Valid()
    ensures StationCommentsData(s, syntax) == "" <==> forall st :: st in s.Stations() ==> !HasComment(s, st)
  {
    CommentedStationsExactly(s);
    var stations := CommentedStations(s);
    if stations != [] {
      assert stations[0] in stations;
      LinesEmpty([syntax.commandMarker + PassageCommand] + EntryLines(CommentEntries(s, stations)) + [""]);
    }
  }

  /**
   * What the importer's passage reader makes of the block: each commented
   * station's name maps to its formatted comment, a later station of the
   * same name replacing an earlier one. It needs a header the reader takes
   * for a passage block and entries the reader takes as they are.
   */
  lemma StationCommentsReadBack(s: SurveyState, syntax: Syntax)
    requires s.Valid()
    requires '\n' !in syntax.commandMarker
    requires Trim(syntax.commandMarker + PassageCommand) != ""
    requires StartsWith(Trim(syntax.commandMarker + PassageCommand), syntax.dataPassagePrefix)
    requires forall e :: e in CommentEntries(s, CommentedStations(s)) ==> IsEntry(syntax, e.0, e.1)
    ensures PassageData(syntax, StationCommentsData(s, syntax)) == EntryMap(CommentEntries(s, CommentedStations(s)))
  {
    var stations := CommentedStations(s);
    var entries := CommentEntries(s, stations);
    if stations == [] {
      NothingToRead(syntax);
    } else {
      var header := syntax.commandMarker + PassageCommand;
      assert StationCommentsData(s, syntax) == Lines([header] + EntryLines(entries) + [""]);
      FormattedEntries(s, syntax, stations);
      hide StationCommentsData, CommentEntries, CommentedStations;
      BlockText(syntax, header, entries);
    }
  }

  /** Entries of formatted comments lie on one line each. */
  lemma FormattedEntries(s: SurveyState, syntax: Syntax, stations: seq<StationId>)
    requires forall k :: 0 <= k < |stations| ==> stations[k] in s.names && stations[k] in s.comments
    requires forall e :: e in CommentEntries(s, stations) ==> IsEntry(syntax, e.0, e.1)
    ensures forall e :: e in CommentEntries(s, stations) ==>
      IsEntry(syntax, e.0, e.1) && forall k :: 0 <= k < |e.1| ==> !IsBreak(e.1[k])
  {
    var entries := CommentEntries(s, stations);
    forall e | e in entries ensures forall k :: 0 <= k < |e.1| ==> !IsBreak(e.1[k]) {
      var j :| 0 <= j < |entries| && entries[j] == e;
      assert e.1 == FormatComment(s.comments[stations[j]]);
    }
  }

  /** The reader finds nothing in empty text. */
  lemma NothingToRead(syntax: Syntax)
    ensures PassageData(syntax, "") == map[]
  {
    assert SplitChar("", '\n') == [""];
    assert [""][..0] == [];
  }

  /** A block of the header and entry lines, then a blank line, reads back as its entries. */
  lemma BlockText(syntax: Syntax, header: string, entries: seq<(string, string)>)
    requires '\n' !in header
    requires Trim(header) != "" && StartsWith(Trim(header), syntax.dataPassagePrefix)
    requires forall e :: e in entries ==> IsEntry(syntax, e.0, e.1) && forall k :: 0 <= k < |e.1| ==> !IsBreak(e.1[k])
    ensures PassageData(syntax, Lines([header] + EntryLines(entries) + [""])) == EntryMap(entries)
  {
    BlockSplit(syntax, header, entries);
    hide Lines, SplitChar, EntryLines, Scanned, EntryMap, Trim;
    forall k | 0 <= k < |entries| ensures IsEntry(syntax, entries[k].0, entries[k].1) {
      assert entries[k] in entries;
    }
    BlockRead(syntax, header, entries);
  }

  /** The text of a block splits back into its lines. */
  lemma BlockSplit(syntax: Syntax, header: string, entries: seq<(string, string)>)
    requires '\n' !in header && Trim(header) != ""
    requires forall e :: e in entries ==> IsEntry(syntax, e.0, e.1) && forall k :: 0 <= k < |e.1| ==> !IsBreak(e.1[k])
    ensures SplitChar(Lines([header] + EntryLines(entries) + [""]), '\n') == [header] + EntryLines(entries)
  {
    hide Trim, IsEntry, IsBreak, SplitChar, Lines;
    var block := [header] + EntryLines(entries);
    BlockLinesOneLine(syntax, header, entries);
    BlockLastLine(header, entries);
    assert (block + [""])[..|block|] == block;
    hide EntryLines;
    SplitCharLines(block + [""]);
  }

  lemma BlockLastLine(header: string, entries: seq<(string, string)>)
    requires Trim(header) != ""
    ensures var block := [header] + EntryLines(entries); block[|block| - 1] != ""
  {
    var block := [header] + EntryLines(entries);
    if entries == [] {
      assert block[0] == header;
    } else {
      assert block[|block| - 1] == entries[|entries| - 1].0 + "\t" + entries[|entries| - 1].1;
    }
  }

  lemma BlockLinesOneLine(syntax: Syntax, header: string, entries: seq<(string, string)>)
    requires '\n' !in header
    requires forall e :: e in entries ==> IsEntry(syntax, e.0, e.1) && forall k :: 0 <= k < |e.1| ==> !IsBreak(e.1[k])
    ensures var ls := [header] + EntryLines(entries) + [""];
      forall k :: 0 <= k < |ls| ==> '\n' !in ls[k]
  {
    var block := [header] + EntryLines(entries);
    forall k | 0 <= k < |block + [""]| ensures '\n' !in (block + [""])[k] {
      if 0 < k < |block| {
        assert entries[k - 1] in entries;
        EntryLineOneLine(syntax, entries[k - 1]);
      }
    }
  }

  /** An entry whose comment was formatted sits on one line. */
  lemma EntryLineOneLine(syntax: Syntax, e: (string, string))
    requires IsEntry(syntax, e.0, e.1)
    requires forall k :: 0 <= k < |e.1| ==> !IsBreak(e.1[k])
    ensures '\n' !in e.0 + "\t" + e.1
  {
    var line := e.0 + "\t" + e.1;
    forall k | 0 <= k < |line| ensures line[k] != '\n' {
      if k < |e.0| {
        assert line[k] == e.0[k] && !IsSpace(e.0[k]);
      } else if k > |e.0| {
        assert line[k] == e.1[k - |e.0| - 1];
      }
    }
  }

  // ---- getExtendedElevationExtensions --------------------------------------------

  /** Direction.name().toLowerCase(). */
  function DirectionWord(d: Direction): string
  {
    match d
    case Left => "left"
    case Right => "right"
  }

  /** getExtendCommand. */
  function ExtendCommand(marker: string, word: string, name: string): string
  {
    marker + "extend " + word + " " + name + "\n"
  }

  /**
   * generateExtendCommandsFromStation: "start" at the station the walk
   * begins from; below it, a station's own direction only where it differs
   * from the direction of the station its leg comes from; then the same
   * for each connected onward leg in turn.
   */
  function ExtendCommands(s: SurveyState, marker: string, st: StationId, last: Option<Direction>, rem: set<StationId>): string
    requires s.Valid()
    decreases rem, 0
  {
    if st !in rem || st !in s.onward then ""
    else
      var current := s.directions[st];
      (if last.None? then ExtendCommand(marker, "start", s.names[st])
       else if current != last.value then ExtendCommand(marker, DirectionWord(current), s.names[st])
       else "") + ExtendLegs(s, marker, s.onward[st], current, rem - {st})
  }

  function ExtendLegs(s: SurveyState, marker: string, legs: seq<Leg>, parent: Direction, rem: set<StationId>): (r: string)
    requires s.Valid()
    ensures legs == [] ==> r == ""
    decreases rem, |legs| + 1
  {
    if legs == [] then "" else ExtendLeg(s, marker, legs[0], parent, rem) + ExtendLegs(s, marker, legs[1..], parent, rem)
  }

  function ExtendLeg(s: SurveyState, marker: string, leg: Leg, parent: Direction, rem: set<StationId>): string
    requires s.Valid()
    decreases rem, 1
  {
    match leg.destination
    case Some(d) => ExtendCommands(s, marker, d, Some(parent), rem)
    case None => ""
  }

  lemma ExtendLegsAt(s: SurveyState, marker: string, legs: seq<Leg>, i: nat, parent: Direction, rem: set<StationId>)
    requires s.Valid() && i < |legs|
    ensures ExtendLegs(s, marker, legs[i..], parent, rem) ==
      ExtendLeg(s, marker, legs[i], parent, rem) + ExtendLegs(s, marker, legs[i + 1..], parent, rem)
  {
    assert legs[i..][1..] == legs[i + 1..];
  }

  /** The extend commands of the whole survey, from its origin. */
  function ExtendedElevation(s: SurveyState, marker: string): string
    requires s.Valid()
  {
    ExtendCommands(s, marker, s.origin, None, s.onward.Keys)
  }

  /** generateExtendCommandsFromStation, appending to the builder. */
  method GenerateExtendCommandsFromStation(s: SurveyState, marker: string, st: StationId, last: Option<Direction>,
                                          rem: set<StationId>, builder: string)
    returns (builder': string)
    requires s.Valid()
    ensures builder' == builder + ExtendCommands(s, marker, st, last, rem)
    decreases rem
  {
    hide ExtendLegs, ExtendCommand, DirectionWord;
    builder' := builder;
    if st !in rem || st !in s.onward {
      return;
    }
    var current := s.directions[st];
    var own := "";
    if last.None? {
      own := ExtendCommand(marker, "start", s.names[st]);
    } else if current != last.value {
      own := ExtendCommand(marker, DirectionWord(current), s.names[st]);
    }
    var legs := s.onward[st];
    assert ExtendCommands(s, marker, st, last, rem) == own + ExtendLegs(s, marker, legs, current, rem - {st});
    hide ExtendCommands;
    builder' := builder' + own;
    ghost var head := builder';
    assert builder + ExtendCommands(s, marker, st, last, rem) == head + ExtendLegs(s, marker, legs, current, rem - {st});
    for i := 0 to |legs|
      invariant builder' + ExtendLegs(s, marker, legs[i..], current, rem - {st}) == head + ExtendLegs(s, marker, legs, current, rem - {st})
    {
      ExtendLegsAt(s, marker, legs, i, current, rem - {st});
      match legs[i].destination {
        case Some(d) =>
          builder' := GenerateExtendCommandsFromStation(s, marker, d, Some(current), rem - {st}, builder');
        case None =>
      }
    }
    assert legs[|legs|..] == [];
  }

  /** getExtendedElevationExtensions. */
  method GetExtendedElevationExtensions(survey: Survey, syntax: Syntax) returns (text: string)
    requires survey.Valid()
    ensures text == ExtendedElevation(survey.State(), syntax.commandMarker)
  {
    var s := survey.State();
    text := GenerateExtendCommandsFromStation(s, syntax.commandMarker, s.origin, None, s.onward.Keys, "");
  }

  /** The commands always open with "start" at the origin. */
  lemma ExtendedElevationStarts(s: SurveyState, marker: string)
    requires s.Valid()
    ensures StartsWith(ExtendedElevation(s, marker), ExtendCommand(marker, "start", s.names[s.origin]))
  {
  }

  /** Below a station, a survey that keeps one direction throughout gives no command. */
  lemma {:induction false} UniformBelow(s: SurveyState, marker: string, st: StationId, d: Direction, rem: set<StationId>)
    requires s.Valid() && forall t :: t in s.directions ==> s.directions[t] == d
    ensures ExtendCommands(s, marker, st, Some(d), rem) == ""
    decreases rem, 0
  {
    if st in rem && st in s.onward {
      UniformLegs(s, marker, s.onward[st], d, rem - {st});
    }
  }

  lemma {:induction false} UniformLegs(s: SurveyState, marker: string, legs: seq<Leg>, d: Direction, rem: set<StationId>)
    requires s.Valid() && forall t :: t in s.directions ==> s.directions[t] == d
    ensures ExtendLegs(s, marker, legs, d, rem) == ""
    decreases rem, |legs| + 1
  {
    if legs != [] {
      assert ExtendLegs(s, marker, legs, d, rem) == ExtendLeg(s, marker, legs[0], d, rem) + ExtendLegs(s, marker, legs[1..], d, rem);
      if legs[0].destination.Some? {
        UniformBelow(s, marker, legs[0].destination.value, d, rem);
      }
      UniformLegs(s, marker, legs[1..], d, rem);
    }
  }

  /** A survey that keeps one direction throughout gets the start command alone. */
  lemma UniformDirectionStartsOnly(s: SurveyState, marker: string, d: Direction)
    requires s.Valid() && forall t :: t in s.directions ==> s.directions[t] == d
    ensures ExtendedElevation(s, marker) == ExtendCommand(marker, "start", s.names[s.origin])
  {
    UniformLegs(s, marker, s.onward[s.origin], d, s.onward.Keys - {s.origin});
  }
}
