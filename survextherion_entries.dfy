/**
 * The centreline block the Survex and Therion exporters write: the data
 * command, then one entry per leg of the chronological list (the five
 * fields, each followed by a tab, then for a promoted leg one commented
 * line per reading it was averaged from), then a blank line.
 *
 * The lemmas read the block back with the importer's own line reader: each
 * entry's first line is a data line of the same stations and readings, and
 * the commented lines under it are the repeats the importer collects.
 */
module SurvexTherionEntries {
  import opened Wrappers
  import opened Text
  import opened Legs
  import opened SurveyFormats
  import opened SurvexTherionImporter
  import opened SurvexTherionCentreline

  /** TableCol.DISTANCE, AZIMUTH and INCLINATION formatting a reading for Locale.UK. */
  datatype Columns = Columns(distance: real -> string, azimuth: real -> string, inclination: real -> string)

  /**
   * One element of the chronological list: the name of the station the leg
   * leaves from, the name of its destination ("-" for a splay) and the leg.
   */
  datatype SurveyListEntry = SurveyListEntry(fromName: string, toName: string, leg: Leg)

  const CentrelineCommand: string := "data normal " + "from to " + "tape compass " + "clino ignoreall"

  /** The three readings of a leg as written. */
  function Readings(columns: Columns, leg: Leg): (r: seq<string>)
    ensures |r| == 3
  {
    [columns.distance(leg.distance), columns.azimuth(leg.azimuth), columns.inclination(leg.inclination)]
  }

  /** The destination as written: the format's splay name in place of "-". */
  function ToName(syntax: Syntax, e: SurveyListEntry): (r: string)
    ensures e.toName == BlankStationName ==> r == syntax.splayStationName
    ensures e.toName != BlankStationName ==> r == e.toName
  {
    if e.toName == BlankStationName then syntax.splayStationName else e.toName
  }

  /** The five fields of the entry's first line. */
  function Fields(syntax: Syntax, columns: Columns, e: SurveyListEntry): (r: seq<string>)
    ensures |r| == 5
  {
    [e.fromName, ToName(syntax, e)] + Readings(columns, e.leg)
  }

  /** The entry's first line: each field followed by a tab. */
  function MainLine(syntax: Syntax, columns: Columns, e: SurveyListEntry): string
  {
    Join(Fields(syntax, columns, e), "\t") + "\t"
  }

  /** The raw shots a promoted leg was averaged from; none for any other leg. */
  function Precursors(e: SurveyListEntry): seq<Leg>
  {
    if e.leg.WasPromoted() then e.leg.promotedFrom else []
  }

  /** A line for one raw shot: the comment character, then the stations and the shot's readings separated by tabs. */
  function PrecursorLine(syntax: Syntax, columns: Columns, e: SurveyListEntry, p: Leg): string
  {
    [syntax.commentChar] + Join([e.fromName, ToName(syntax, e)] + Readings(columns, p), "\t")
  }

  function PrecursorLines(syntax: Syntax, columns: Columns, e: SurveyListEntry, ps: seq<Leg>): (r: seq<string>)
    ensures |r| == |ps|
    ensures forall k :: 0 <= k < |r| ==> r[k] == PrecursorLine(syntax, columns, e, ps[k])
  {
    seq(|ps|, k requires 0 <= k < |ps| => PrecursorLine(syntax, columns, e, ps[k]))
  }

  /** Each shot's line after a line feed, as formatEntry appends them. */
  function PrecursorText(syntax: Syntax, columns: Columns, e: SurveyListEntry, ps: seq<Leg>): string
  {
    if ps == [] then ""
    else PrecursorText(syntax, columns, e, ps[..|ps| - 1]) + "\n" + PrecursorLine(syntax, columns, e, ps[|ps| - 1])
  }

  /** formatEntry: the first line, then a line for each raw shot of a promoted leg. */
  function FormattedEntry(syntax: Syntax, columns: Columns, e: SurveyListEntry): string
  {
    MainLine(syntax, columns, e) + PrecursorText(syntax, columns, e, Precursors(e))
  }

  /** The lines of the entry: the first line and one per raw shot, in order. */
  function WrittenLines(syntax: Syntax, columns: Columns, e: SurveyListEntry): (r: seq<string>)
    ensures |r| == 1 + |Precursors(e)|
  {
    [MainLine(syntax, columns, e)] + PrecursorLines(syntax, columns, e, Precursors(e))
  }

  /** The entries in order, each followed by a line feed. */
  function EntriesText(syntax: Syntax, columns: Columns, entries: seq<SurveyListEntry>): string
  {
    if entries == [] then ""
    else EntriesText(syntax, columns, entries[..|entries| - 1]) + FormattedEntry(syntax, columns, entries[|entries| - 1]) + "\n"
  }

  /** The lines of all entries in order. */
  function AllWrittenLines(syntax: Syntax, columns: Columns, entries: seq<SurveyListEntry>): seq<string>
  {
    if entries == [] then []
    else AllWrittenLines(syntax, columns, entries[..|entries| - 1]) + WrittenLines(syntax, columns, entries[|entries| - 1])
  }

  /** getCentrelineData: the data command, the entries, a blank line. */
  function CentrelineData(syntax: Syntax, columns: Columns, entries: seq<SurveyListEntry>): string
  {
    syntax.commandMarker + CentrelineCommand + "\n" + EntriesText(syntax, columns, entries) + "\n"
  }

  // ---- the methods ------------------------------------------------------------

  /** Five fields joined by tabs, written out. */
  lemma JoinFive(a: string, b: string, c: string, d: string, f: string)
    ensures Join([a, b, c, d, f], "\t") == a + "\t" + b + "\t" + c + "\t" + d + "\t" + f
  {
    var words := [a, b, c, d, f];
    assert Join(words[4..], "\t") == f;
    assert Join(words[3..], "\t") == d + "\t" + f by { assert words[3..][1..] == words[4..]; }
    assert Join(words[2..], "\t") == c + "\t" + d + "\t" + f by { assert words[2..][1..] == words[3..]; }
    assert Join(words[1..], "\t") == b + "\t" + c + "\t" + d + "\t" + f by { assert words[1..][1..] == words[2..]; }
  }

  /** formatEntry, appending to the builder. */
  method FormatEntry(builder: string, e: SurveyListEntry, syntax: Syntax, columns: Columns) returns (builder': string)
    ensures builder' == builder + FormattedEntry(syntax, columns, e)
  {
    var fromName := e.fromName;
    var leg := e.leg;
    var toName := e.toName;
    if toName == BlankStationName {
      toName := syntax.splayStationName;
    }
    var main := MainFields(fromName, toName, columns, leg);
    assert main == MainLine(syntax, columns, e);
    builder' := builder + main;
    hide MainLine, PrecursorLine, Join;
    assert builder + FormattedEntry(syntax, columns, e) == builder' + PrecursorText(syntax, columns, e, Precursors(e));
    if leg.WasPromoted() {
      builder' := AppendPrecursors(builder', syntax.commentChar, fromName, toName, columns, leg.promotedFrom, syntax, e);
    } else {
      assert PrecursorText(syntax, columns, e, Precursors(e)) == "";
    }
  }

  /** The loop of formatEntry over a promoted leg's raw shots. */
  method AppendPrecursors(builder: string, commentChar: char, fromName: string, toName: string, columns: Columns,
                          precursors: seq<Leg>, ghost syntax: Syntax, ghost e: SurveyListEntry) returns (builder': string)
    requires commentChar == syntax.commentChar && fromName == e.fromName && toName == ToName(syntax, e)
    ensures builder' == builder + PrecursorText(syntax, columns, e, precursors)
  {
    builder' := builder;
    PrecursorTextAt(syntax, columns, e, precursors, 0);
    for i := 0 to |precursors|
      invariant builder' == builder + PrecursorText(syntax, columns, e, precursors[..i])
    {
      var line := PrecursorFields(commentChar, fromName, toName, columns, precursors[i]);
      assert line == PrecursorLine(syntax, columns, e, precursors[i]);
      PrecursorTextAt(syntax, columns, e, precursors, i + 1);
      builder' := builder' + "\n" + line;
    }
    assert precursors[..|precursors|] == precursors;
  }

  lemma PrecursorTextAt(syntax: Syntax, columns: Columns, e: SurveyListEntry, ps: seq<Leg>, i: nat)
    requires i <= |ps|
    ensures i == 0 ==> PrecursorText(syntax, columns, e, ps[..i]) == ""
    ensures 0 < i ==>
              PrecursorText(syntax, columns, e, ps[..i]) ==
              PrecursorText(syntax, columns, e, ps[..i - 1]) + "\n" + PrecursorLine(syntax, columns, e, ps[i - 1])
  {
    if 0 < i {
      assert ps[..i][..i - 1] == ps[..i - 1];
    }
  }

  /** The five fields formatEntry appends through formatField, each followed by a tab. */
  method MainFields(fromName: string, toName: string, columns: Columns, leg: Leg) returns (line: string)
    ensures line == Join([fromName, toName] + Readings(columns, leg), "\t") + "\t"
  {
    var distance := columns.distance(leg.distance);
    var azimuth := columns.azimuth(leg.azimuth);
    var inclination := columns.inclination(leg.inclination);
    JoinFive(fromName, toName, distance, azimuth, inclination);
    assert [fromName, toName] + Readings(columns, leg) == [fromName, toName, distance, azimuth, inclination];
    line := fromName + "\t";
    line := line + toName + "\t";
    line := line + distance + "\t";
    line := line + azimuth + "\t";
    line := line + inclination + "\t";
  }

  /** The text formatEntry appends for one raw shot after the line feed. */
  method PrecursorFields(commentChar: char, fromName: string, toName: string, columns: Columns, precursor: Leg) returns (line: string)
    ensures line == [commentChar] + Join([fromName, toName] + Readings(columns, precursor), "\t")
  {
    var distance := columns.distance(precursor.distance);
    var azimuth := columns.azimuth(precursor.azimuth);
    var inclination := columns.inclination(precursor.inclination);
    JoinFive(fromName, toName, distance, azimuth, inclination);
    assert [fromName, toName] + Readings(columns, precursor) == [fromName, toName, distance, azimuth, inclination];
    line := [commentChar];
    line := line + fromName + "\t";
    line := line + toName + "\t";
    line := line + distance + "\t";
    line := line + azimuth + "\t";
    line := line + inclination;
  }

  /** getCentrelineData, over the chronological list. */
  method GetCentrelineData(entries: seq<SurveyListEntry>, syntax: Syntax, columns: Columns) returns (text: string)
    ensures text == CentrelineData(syntax, columns, entries)
  {
    hide FormattedEntry;
    text := syntax.commandMarker + CentrelineCommand + "\n";
    ghost var head := text;
    EntriesTextAt(syntax, columns, entries, 0);
    for i := 0 to |entries|
      invariant text == head + EntriesText(syntax, columns, entries[..i])
    {
      text := FormatEntry(text, entries[i], syntax, columns);
      text := text + "\n";
      EntriesTextAt(syntax, columns, entries, i + 1);
    }
    assert entries[..|entries|] == entries;
    text := text + "\n";
  }

  lemma EntriesTextAt(syntax: Syntax, columns: Columns, entries: seq<SurveyListEntry>, i: nat)
    requires i <= |entries|
    ensures i == 0 ==> EntriesText(syntax, columns, entries[..i]) == ""
    ensures 0 < i ==>
              EntriesText(syntax, columns, entries[..i]) ==
              EntriesText(syntax, columns, entries[..i - 1]) + FormattedEntry(syntax, columns, entries[i - 1]) + "\n"
  {
    if 0 < i {
      assert entries[..i][..i - 1] == entries[..i - 1];
    }
  }

  // ---- reading the block back ---------------------------------------------------

  /** A field the importer reads back as written: a word holding neither comment character. */
  predicate IsPlainField(w: string)
  {
    IsWord(w) && ';' !in w && '#' !in w
  }

  /** The written readings of a leg are numbers to the parser. */
  predicate Readable(columns: Columns, parse: NumberParser, leg: Leg)
  {
    parse(columns.distance(leg.distance)).Some? && parse(columns.azimuth(leg.azimuth)).Some? &&
    parse(columns.inclination(leg.inclination)).Some?
  }

  /** The shot the importer makes of a leg's written readings. */
  function Reread(columns: Columns, parse: NumberParser, leg: Leg): (r: Leg)
    requires Readable(columns, parse, leg)
    ensures !r.HasDestination() && !r.WasPromoted()
    ensures r.distance == parse(columns.distance(leg.distance)).value
    ensures r.azimuth == parse(columns.azimuth(leg.azimuth)).value
    ensures r.inclination == parse(columns.inclination(leg.inclination)).value
  {
    Splay(0, parse(columns.distance(leg.distance)).value, parse(columns.azimuth(leg.azimuth)).value,
      parse(columns.inclination(leg.inclination)).value)
  }

  function Rereads(columns: Columns, parse: NumberParser, legs: seq<Leg>): (r: seq<Leg>)
    requires forall k :: 0 <= k < |legs| ==> Readable(columns, parse, legs[k])
    ensures |r| == |legs|
    ensures forall k :: 0 <= k < |r| ==> r[k] == Reread(columns, parse, legs[k])
  {
    seq(|legs|, k requires 0 <= k < |legs| && Readable(columns, parse, legs[k]) => Reread(columns, parse, legs[k]))
  }

  /**
   * An entry whose text survives the round trip: its names and readings are
   * plain fields, its first line does not open with '*', and every reading,
   * its own and its raw shots', is a number to the parser.
   */
  predicate WellWritten(syntax: Syntax, columns: Columns, parse: NumberParser, e: SurveyListEntry)
  {
    (forall k :: 0 <= k < 5 ==> IsPlainField(Fields(syntax, columns, e)[k])) &&
    e.fromName != "" && e.fromName[0] != '*' &&
    Readable(columns, parse, e.leg) &&
    forall p :: p in Precursors(e) ==>
      Readable(columns, parse, p) && forall j :: 0 <= j < 3 ==> IsWord(Readings(columns, p)[j])
  }

  predicate AllWellWritten(syntax: Syntax, columns: Columns, parse: NumberParser, entries: seq<SurveyListEntry>)
  {
    forall j :: 0 <= j < |entries| ==> WellWritten(syntax, columns, parse, entries[j])
  }

  /** The comment character the importer recognises. */
  predicate CommentCharRead(syntax: Syntax)
  {
    syntax.commentChar == ';' || syntax.commentChar == '#'
  }

  /** No blank character is inside a word. */
  lemma WordWithout(w: string, c: char)
    requires IsWord(w) && IsBlank(c)
    ensures c !in w
  {
  }

  /** The first line cut into fields at white space gives the five fields, and it holds no comment. */
  lemma MainLineShape(syntax: Syntax, columns: Columns, parse: NumberParser, e: SurveyListEntry)
    requires WellWritten(syntax, columns, parse, e)
    ensures var t := Trim(MainLine(syntax, columns, e));
      t != "" && t[0] == e.fromName[0] && SplitWs(t) == Fields(syntax, columns, e)
    ensures ';' !in MainLine(syntax, columns, e) && '#' !in MainLine(syntax, columns, e)
  {
    var fields := Fields(syntax, columns, e);
    var j := Join(fields, "\t");
    assert forall k :: 0 <= k < |fields| ==> IsWord(fields[k]) by {
      forall k | 0 <= k < |fields| ensures IsWord(fields[k]) {
        assert IsPlainField(fields[k]);
      }
    }
    SplitWsOfJoinedWords(fields, "\t");
    assert j == fields[0] + "\t" + Join(fields[1..], "\t");
    assert j[0] == e.fromName[0];
    JoinWithout(fields, "\t", ';');
    JoinWithout(fields, "\t", '#');
  }

  /** The first line of an entry reads back as a data line of the same stations and readings, without comment. */
  lemma MainLineRead(syntax: Syntax, columns: Columns, parse: NumberParser, e: SurveyListEntry)
    requires WellWritten(syntax, columns, parse, e)
    ensures var r := Reread(columns, parse, e.leg);
      ReadLine(MainLine(syntax, columns, e), parse) ==
      Data(LegLine(e.fromName, ToName(syntax, e), r.distance, r.azimuth, r.inclination, ""))
  {
    MainLineShape(syntax, columns, parse, e);
  }

  /** The first line of an entry is never taken for a repeat of the leg before it. */
  lemma MainLineStops(syntax: Syntax, columns: Columns, parse: NumberParser, e: SurveyListEntry, from: string, to: string)
    requires WellWritten(syntax, columns, parse, e)
    ensures RepeatLine(MainLine(syntax, columns, e), from, to, parse) == Stop
  {
    MainLineShape(syntax, columns, parse, e);
  }

  /** A raw shot's line reads back as a repeat of the entry's leg carrying the shot's readings. */
  lemma PrecursorLineRead(syntax: Syntax, columns: Columns, parse: NumberParser, e: SurveyListEntry, p: Leg)
    requires CommentCharRead(syntax) && WellWritten(syntax, columns, parse, e) && p in Precursors(e)
    ensures RepeatLine(PrecursorLine(syntax, columns, e, p), e.fromName, ToName(syntax, e), parse) ==
            Shot(Reread(columns, parse, p))
  {
    var fields := Fields(syntax, columns, e);
    var words := [e.fromName, ToName(syntax, e)] + Readings(columns, p);
    assert IsPlainField(fields[0]) && IsPlainField(fields[1]);
    assert forall k :: 0 <= k < |words| ==> IsWord(words[k]) by {
      forall k | 0 <= k < |words| ensures IsWord(words[k]) {
        if k >= 2 {
          assert words[k] == Readings(columns, p)[k - 2];
        }
      }
    }
    CommentLineFields(syntax.commentChar, words);
  }

  /** A comment character followed by words joined by tabs reads back as those words. */
  lemma CommentLineFields(c: char, words: seq<string>)
    requires c == ';' || c == '#'
    requires words != [] && forall k :: 0 <= k < |words| ==> IsWord(words[k])
    ensures Trim([c] + Join(words, "\t")) != "" && CommentFields([c] + Join(words, "\t")) == words
  {
    hide Trim, Join, SplitWs, IsWord, IsTrimmed;
    var j := Join(words, "\t");
    var line := [c] + j;
    WordsTrimmed(words);
    JoinEnds(words, "\t");
    TrimTrailingPad(line, "");
    assert line + "" == line && j + "" == j;
    assert Trim(line)[1..] == j;
    SplitWsOfJoinedWords(words, "");
  }

  /** Lines each read as a repeat carrying its shot, followed by the end of the block or a line that ends the repeats, give back the shots in order. */
  lemma {:induction false} RepeatsRead(syntax: Syntax, columns: Columns, parse: NumberParser, e: SurveyListEntry,
                                       ps: seq<Leg>, rest: seq<string>)
    requires forall k :: 0 <= k < |ps| ==> Readable(columns, parse, ps[k])
    requires forall k :: 0 <= k < |ps| ==>
               RepeatLine(PrecursorLine(syntax, columns, e, ps[k]), e.fromName, ToName(syntax, e), parse) == Shot(Reread(columns, parse, ps[k]))
    requires rest == [] || RepeatLine(rest[0], e.fromName, ToName(syntax, e), parse) == Stop
    ensures CommentedRepeats(PrecursorLines(syntax, columns, e, ps) + rest, e.fromName, ToName(syntax, e), parse) ==
            Rereads(columns, parse, ps)
  {
    hide RepeatLine, PrecursorLine, Reread, Readable, ToName;
    var from, to := e.fromName, ToName(syntax, e);
    var lines := PrecursorLines(syntax, columns, e, ps) + rest;
    if ps == [] {
      assert lines == rest;
      assert Rereads(columns, parse, ps) == [];
    } else {
      RepeatsRead(syntax, columns, parse, e, ps[1..], rest);
      var after := Rereads(columns, parse, ps[1..]);
      RereadsCons(columns, parse, ps);
      PrecursorLinesCons(syntax, columns, e, ps, rest);
    }
  }

  lemma RereadsCons(columns: Columns, parse: NumberParser, ps: seq<Leg>)
    requires ps != [] && forall k :: 0 <= k < |ps| ==> Readable(columns, parse, ps[k])
    ensures Rereads(columns, parse, ps) == [Reread(columns, parse, ps[0])] + Rereads(columns, parse, ps[1..])
  {
    hide Reread, Readable;
    var r := Rereads(columns, parse, ps);
    assert r == [r[0]] + r[1..];
  }

  lemma PrecursorLinesCons(syntax: Syntax, columns: Columns, e: SurveyListEntry, ps: seq<Leg>, rest: seq<string>)
    requires ps != []
    ensures var lines := PrecursorLines(syntax, columns, e, ps) + rest;
      lines[0] == PrecursorLine(syntax, columns, e, ps[0]) &&
      lines[1..] == PrecursorLines(syntax, columns, e, ps[1..]) + rest
  {
    hide PrecursorLine;
    var lines := PrecursorLines(syntax, columns, e, ps) + rest;
    assert lines[1..] == PrecursorLines(syntax, columns, e, ps[1..]) + rest;
  }

  /** The lines under an entry's first line, followed by the end of the block or another entry, give back its raw shots in order. */
  lemma PrecursorsRead(syntax: Syntax, columns: Columns, parse: NumberParser, e: SurveyListEntry, rest: seq<string>)
    requires CommentCharRead(syntax) && WellWritten(syntax, columns, parse, e)
    requires rest == [] || RepeatLine(rest[0], e.fromName, ToName(syntax, e), parse) == Stop
    ensures forall k :: 0 <= k < |Precursors(e)| ==> Readable(columns, parse, Precursors(e)[k])
    ensures CommentedRepeats(WrittenLines(syntax, columns, e)[1..] + rest, e.fromName, ToName(syntax, e), parse) ==
            Rereads(columns, parse, Precursors(e))
  {
    var ps := Precursors(e);
    forall k | 0 <= k < |ps|
      ensures Readable(columns, parse, ps[k])
      ensures RepeatLine(PrecursorLine(syntax, columns, e, ps[k]), e.fromName, ToName(syntax, e), parse) == Shot(Reread(columns, parse, ps[k]))
    {
      assert ps[k] in ps;
      PrecursorLineRead(syntax, columns, parse, e, ps[k]);
    }
    RepeatsRead(syntax, columns, parse, e, ps, rest);
  }

  // ---- the block as lines -------------------------------------------------------

  lemma {:induction false} PrecursorTextLines(syntax: Syntax, columns: Columns, e: SurveyListEntry, first: string, ps: seq<Leg>)
    ensures first + PrecursorText(syntax, columns, e, ps) + "\n" == Lines([first] + PrecursorLines(syntax, columns, e, ps))
    decreases |ps|
  {
    hide PrecursorLine;
    if ps == [] {
      assert [first] + PrecursorLines(syntax, columns, e, ps) == [first];
    } else {
      var init := ps[..|ps| - 1];
      var line := PrecursorLine(syntax, columns, e, ps[|ps| - 1]);
      PrecursorTextLines(syntax, columns, e, first, init);
      assert [first] + PrecursorLines(syntax, columns, e, ps) == ([first] + PrecursorLines(syntax, columns, e, init)) + [line];
      LinesAppend([first] + PrecursorLines(syntax, columns, e, init), line);
    }
  }

  /** An entry and the line feed after it are its lines. */
  lemma FormattedEntryLines(syntax: Syntax, columns: Columns, e: SurveyListEntry)
    ensures FormattedEntry(syntax, columns, e) + "\n" == Lines(WrittenLines(syntax, columns, e))
  {
    PrecursorTextLines(syntax, columns, e, MainLine(syntax, columns, e), Precursors(e));
  }

  /** The entries, each with its line feed, are the lines of all of them. */
  lemma {:induction false} EntriesTextLines(syntax: Syntax, columns: Columns, entries: seq<SurveyListEntry>)
    ensures EntriesText(syntax, columns, entries) == Lines(AllWrittenLines(syntax, columns, entries))
    decreases |entries|
  {
    if entries != [] {
      var init := entries[..|entries| - 1];
      var e := entries[|entries| - 1];
      EntriesTextLines(syntax, columns, init);
      FormattedEntryLines(syntax, columns, e);
      LinesConcat(AllWrittenLines(syntax, columns, init), WrittenLines(syntax, columns, e));
    }
  }

  lemma {:induction false} AllWrittenLinesConcat(syntax: Syntax, columns: Columns, a: seq<SurveyListEntry>, b: seq<SurveyListEntry>)
    ensures AllWrittenLines(syntax, columns, a + b) == AllWrittenLines(syntax, columns, a) + AllWrittenLines(syntax, columns, b)
    decreases |b|
  {
    hide AllWrittenLines, WrittenLines;
    AllWrittenLinesLast(syntax, columns, b);
    if b == [] {
      assert a + b == a;
    } else {
      var init := b[..|b| - 1];
      var last := b[|b| - 1];
      AllWrittenLinesLast(syntax, columns, a + b);
      assert (a + b)[..|a + b| - 1] == a + init;
      assert (a + b)[|a + b| - 1] == last;
      AllWrittenLinesConcat(syntax, columns, a, init);
      calc {
        AllWrittenLines(syntax, columns, a + b);
        AllWrittenLines(syntax, columns, a + init) + WrittenLines(syntax, columns, last);
        AllWrittenLines(syntax, columns, a) + AllWrittenLines(syntax, columns, init) + WrittenLines(syntax, columns, last);
        AllWrittenLines(syntax, columns, a) + AllWrittenLines(syntax, columns, b);
      }
    }
  }

  lemma AllWrittenLinesLast(syntax: Syntax, columns: Columns, entries: seq<SurveyListEntry>)
    ensures entries == [] ==> AllWrittenLines(syntax, columns, entries) == []
    ensures entries != [] ==>
              AllWrittenLines(syntax, columns, entries) ==
              AllWrittenLines(syntax, columns, entries[..|entries| - 1]) + WrittenLines(syntax, columns, entries[|entries| - 1])
  {
  }

  /** Every line of a well-written entry is non-empty and holds no line feed. */
  lemma WrittenLinesClean(syntax: Syntax, columns: Columns, parse: NumberParser, e: SurveyListEntry)
    requires CommentCharRead(syntax) && WellWritten(syntax, columns, parse, e)
    ensures forall l :: l in WrittenLines(syntax, columns, e) ==> l != "" && '\n' !in l
  {
    var fields := Fields(syntax, columns, e);
    forall k | 0 <= k < 5 ensures '\n' !in fields[k] {
      assert IsPlainField(fields[k]);
      WordWithout(fields[k], '\n');
    }
    JoinWithout(fields, "\t", '\n');
    var ps := Precursors(e);
    forall k | 0 <= k < |ps| ensures '\n' !in PrecursorLine(syntax, columns, e, ps[k]) {
      assert ps[k] in ps;
      var words := [e.fromName, ToName(syntax, e)] + Readings(columns, ps[k]);
      forall j | 0 <= j < 5 ensures '\n' !in words[j] {
        if j < 2 {
          assert IsPlainField(fields[j]);
          WordWithout(fields[j], '\n');
        } else {
          assert words[j] == Readings(columns, ps[k])[j - 2];
          WordWithout(words[j], '\n');
        }
      }
      JoinWithout(words, "\t", '\n');
    }
  }

  lemma {:induction false} AllWrittenLinesClean(syntax: Syntax, columns: Columns, parse: NumberParser, entries: seq<SurveyListEntry>)
    requires CommentCharRead(syntax)
    requires AllWellWritten(syntax, columns, parse, entries)
    ensures forall l :: l in AllWrittenLines(syntax, columns, entries) ==> l != "" && '\n' !in l
    decreases |entries|
  {
    if entries != [] {
      AllWrittenLinesClean(syntax, columns, parse, entries[..|entries| - 1]);
      WrittenLinesClean(syntax, columns, parse, entries[|entries| - 1]);
    }
  }

  /** The data command line of the block. */
  function HeaderLine(syntax: Syntax): string
  {
    syntax.commandMarker + CentrelineCommand
  }

  lemma HeaderLineClean(syntax: Syntax)
    requires '\n' !in syntax.commandMarker
    ensures '\n' !in HeaderLine(syntax) && HeaderLine(syntax) != ""
  {
    CentrelineCommandClean();
    assert HeaderLine(syntax) == syntax.commandMarker + CentrelineCommand;
  }

  lemma CentrelineCommandClean()
    ensures '\n' !in CentrelineCommand && CentrelineCommand != ""
  {
    assert '\n' !in "data normal ";
    assert '\n' !in "from to ";
    assert '\n' !in "tape compass ";
    assert '\n' !in "clino ignoreall";
  }

  /** String.split("\n") of the block: the data command, then every entry's lines; the blank line is dropped. */
  lemma CentrelineDataSplit(syntax: Syntax, columns: Columns, parse: NumberParser, entries: seq<SurveyListEntry>)
    requires CommentCharRead(syntax) && '\n' !in syntax.commandMarker
    requires AllWellWritten(syntax, columns, parse, entries)
    ensures SplitChar(CentrelineData(syntax, columns, entries), '\n') == [HeaderLine(syntax)] + AllWrittenLines(syntax, columns, entries)
  {
    hide AllWrittenLines, WellWritten, EntriesText, WrittenLines, SplitChar, SplitAll;
    var all := AllWrittenLines(syntax, columns, entries);
    var header := HeaderLine(syntax);
    var ls := [header] + all + [""];
    EntriesTextLines(syntax, columns, entries);
    AllWrittenLinesClean(syntax, columns, parse, entries);
    LinesAppend([header] + all, "");
    LinesConcat([header], all);
    assert CentrelineData(syntax, columns, entries) == Lines(ls);
    HeaderLineClean(syntax);
    forall k | 0 <= k < |ls| ensures '\n' !in ls[k] {
      if k == 0 {
        assert ls[k] == header;
      } else if k == |ls| - 1 {
        assert ls[k] == "";
      } else {
        assert ls[k] == all[k - 1];
        assert all[k - 1] in all;
      }
    }
    SplitCharLines(ls);
    var kept := [header] + all;
    assert kept[|kept| - 1] != "" by {
      if all != [] {
        assert all[|all| - 1] in all;
      }
    }
    assert ls[..|ls| - 1] == kept;
  }

  /** The lines after an entry: none, or the first line of the next entry. */
  lemma AfterEntryStops(syntax: Syntax, columns: Columns, parse: NumberParser, rest: seq<SurveyListEntry>, from: string, to: string)
    requires AllWellWritten(syntax, columns, parse, rest)
    ensures var lines := AllWrittenLines(syntax, columns, rest);
      lines == [] || RepeatLine(lines[0], from, to, parse) == Stop
  {
    if rest != [] {
      AllWrittenLinesConcat(syntax, columns, [rest[0]], rest[1..]);
      assert [rest[0]] + rest[1..] == rest;
      AllWrittenLinesLast(syntax, columns, [rest[0]]);
      assert [rest[0]][..0] == [];
      AllWrittenLinesLast(syntax, columns, []);
      MainLineStops(syntax, columns, parse, rest[0], from, to);
    }
  }

  /** The k-th entry's first line in the block's lines: after the data command and the lines of the entries before it. */
  function EntryIndex(syntax: Syntax, columns: Columns, entries: seq<SurveyListEntry>, k: nat): nat
    requires k <= |entries|
  {
    1 + |AllWrittenLines(syntax, columns, entries[..k])|
  }

  /** The lines of all entries: those before the k-th, its own, those after it. */
  lemma AllWrittenLinesAround(syntax: Syntax, columns: Columns, entries: seq<SurveyListEntry>, k: nat)
    requires k < |entries|
    ensures AllWrittenLines(syntax, columns, entries) ==
            AllWrittenLines(syntax, columns, entries[..k]) + WrittenLines(syntax, columns, entries[k]) +
            AllWrittenLines(syntax, columns, entries[k + 1..])
  {
    var e := entries[k];
    hide WrittenLines;
    assert entries == entries[..k] + [e] + entries[k + 1..];
    AllWrittenLinesConcat(syntax, columns, entries[..k] + [e], entries[k + 1..]);
    AllWrittenLinesConcat(syntax, columns, entries[..k], [e]);
    AllWrittenLinesLast(syntax, columns, [e]);
    assert [e][..0] == [];
    AllWrittenLinesLast(syntax, columns, []);
  }

  /** An entry's lines between any lines before it and lines after it that end its repeats. */
  lemma EntryLinesRead(syntax: Syntax, columns: Columns, parse: NumberParser, e: SurveyListEntry,
                       before: seq<string>, after: seq<string>)
    requires CommentCharRead(syntax) && WellWritten(syntax, columns, parse, e)
    requires after == [] || RepeatLine(after[0], e.fromName, ToName(syntax, e), parse) == Stop
    ensures var lines := before + WrittenLines(syntax, columns, e) + after;
      var r := Reread(columns, parse, e.leg);
      ReadLine(lines[|before|], parse) == Data(LegLine(e.fromName, ToName(syntax, e), r.distance, r.azimuth, r.inclination, "")) &&
      (forall j :: 0 <= j < |Precursors(e)| ==> Readable(columns, parse, Precursors(e)[j])) &&
      CommentedRepeats(lines[|before| + 1..], e.fromName, ToName(syntax, e), parse) == Rereads(columns, parse, Precursors(e))
  {
    var written := WrittenLines(syntax, columns, e);
    var lines := before + written + after;
    assert lines[|before|] == MainLine(syntax, columns, e);
    assert lines[|before| + 1..] == written[1..] + after;
    hide WrittenLines, MainLine;
    MainLineRead(syntax, columns, parse, e);
    PrecursorsRead(syntax, columns, parse, e, after);
  }

  /**
   * The k-th entry among the block's lines: its first line is a data line
   * with the entry's stations and the parsed readings, and the repeats the
   * importer gathers under it are its raw shots, in order.
   */
  lemma EntryRead(syntax: Syntax, columns: Columns, parse: NumberParser, entries: seq<SurveyListEntry>, k: nat)
    requires CommentCharRead(syntax)
    requires AllWellWritten(syntax, columns, parse, entries)
    requires k < |entries|
    ensures var lines := [HeaderLine(syntax)] + AllWrittenLines(syntax, columns, entries);
      var i := EntryIndex(syntax, columns, entries, k);
      var e := entries[k];
      var r := Reread(columns, parse, e.leg);
      i < |lines| &&
      ReadLine(lines[i], parse) == Data(LegLine(e.fromName, ToName(syntax, e), r.distance, r.azimuth, r.inclination, "")) &&
      (forall j :: 0 <= j < |Precursors(e)| ==> Readable(columns, parse, Precursors(e)[j])) &&
      CommentedRepeats(lines[i + 1..], e.fromName, ToName(syntax, e), parse) == Rereads(columns, parse, Precursors(e))
  {
    hide ReadLine, CommentedRepeats, RepeatLine, Rereads, Reread, Readable, Precursors, MainLine, PrecursorLines;
    hide WrittenLines, AllWrittenLines, WellWritten, ToName, HeaderLine;
    var e := entries[k];
    var before := [HeaderLine(syntax)] + AllWrittenLines(syntax, columns, entries[..k]);
    var rest := entries[k + 1..];
    var after := AllWrittenLines(syntax, columns, rest);
    AllWrittenLinesAround(syntax, columns, entries, k);
    assert [HeaderLine(syntax)] + AllWrittenLines(syntax, columns, entries) == before + WrittenLines(syntax, columns, e) + after;
    assert AllWellWritten(syntax, columns, parse, rest) by {
      forall j | 0 <= j < |rest| ensures WellWritten(syntax, columns, parse, rest[j]) {
        assert rest[j] == entries[k + 1 + j];
      }
    }
    assert WellWritten(syntax, columns, parse, e);
    hide AllWellWritten;
    AfterEntryStops(syntax, columns, parse, rest, e.fromName, ToName(syntax, e));
    EntryLinesRead(syntax, columns, parse, e, before, after);
  }

  /**
   * Reading the whole block back with String.split("\n"): the k-th entry's
   * first line is a data line with the entry's stations and the parsed
   * readings, and the repeats under it are its raw shots, in order.
   */
  lemma CentrelineDataRead(syntax: Syntax, columns: Columns, parse: NumberParser, entries: seq<SurveyListEntry>, k: nat)
    requires CommentCharRead(syntax) && '\n' !in syntax.commandMarker
    requires AllWellWritten(syntax, columns, parse, entries)
    requires k < |entries|
    ensures var lines := SplitChar(CentrelineData(syntax, columns, entries), '\n');
      var i := EntryIndex(syntax, columns, entries, k);
      var e := entries[k];
      var r := Reread(columns, parse, e.leg);
      i < |lines| &&
      ReadLine(lines[i], parse) == Data(LegLine(e.fromName, ToName(syntax, e), r.distance, r.azimuth, r.inclination, "")) &&
      (forall j :: 0 <= j < |Precursors(e)| ==> Readable(columns, parse, Precursors(e)[j])) &&
      CommentedRepeats(lines[i + 1..], e.fromName, ToName(syntax, e), parse) == Rereads(columns, parse, Precursors(e))
  {
    CentrelineDataSplit(syntax, columns, parse, entries);
    EntryRead(syntax, columns, parse, entries, k);
  }
}
