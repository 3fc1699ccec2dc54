/**
 * The PocketTopo text export: a header with the trip date, then the DATA
 * section with one tab-separated line per leg of the chronological list.
 * A leg shot backwards is written from its far end. The line of a
 * promoted leg carries its raw shots as a `{from: ...}` instruction in a
 * trailing comment, followed by the comment of the destination station.
 * The Survex/Therion importer's comment reader gets both back.
 *
 * The plan and extended-elevation drawings that follow the data are
 * parameters; their text is not part of this model.
 */
module PocketTopoTxtExporter {
  import opened Wrappers
  import opened Text
  import opened Legs
  import opened SurvexTherionImporter
  import opened SurvexTherionCentreline
  import opened SurvexTherionEntries
  import opened SurvexTherionUtil

  /**
   * One element of the chronological list, with the comment of the leg's
   * destination station. "" stands both for a station without a comment
   * and for the blank station a splay leads to.
   */
  datatype ListedLeg = ListedLeg(entry: SurveyListEntry, toComment: string)

  // ---- formatEntry ------------------------------------------------------------

  /** The entry as written: a leg shot backwards is read from the far end, with its station names swapped. */
  function Oriented(e: SurveyListEntry): (r: SurveyListEntry)
    ensures !r.leg.wasShotBackwards
    ensures r.leg.distance == e.leg.distance && r.leg.destination == e.leg.destination
    ensures r.leg.WasPromoted() == e.leg.WasPromoted()
    ensures e.leg.wasShotBackwards ==> r.fromName == e.toName && r.toName == e.fromName && r.leg == Reverse(e.leg)
    ensures !e.leg.wasShotBackwards ==> r == e
  {
    if e.leg.wasShotBackwards then SurveyListEntry(e.toName, e.fromName, Reverse(e.leg)) else e
  }

  /** Writing a backwards leg from the far end loses nothing: turning it round again gives the entry as surveyed. */
  lemma OrientedUndone(e: SurveyListEntry)
    requires e.leg.wasShotBackwards && Normalised(e.leg)
    ensures var o := Oriented(e);
      SurveyListEntry(o.toName, o.fromName, Reverse(o.leg)) == e
  {
    ReverseTwice(e.leg);
  }

  /** The destination column: the blank station of a splay is written as an empty field. */
  function ToField(toName: string): (r: string)
    ensures toName == BlankStationName ==> r == ""
    ensures toName != BlankStationName ==> r == toName
  {
    if toName == BlankStationName then "" else toName
  }

  /** The five columns of an entry's line. */
  function DataFields(columns: Columns, e: SurveyListEntry): (r: seq<string>)
    ensures |r| == 5
  {
    var o := Oriented(e);
    [o.fromName, ToField(o.toName)] + Readings(columns, o.leg)
  }

  /** One raw shot inside the instruction: its three readings separated by spaces. */
  function Triple(columns: Columns, p: Leg): string
  {
    Join(Readings(columns, p), " ")
  }

  function Triples(columns: Columns, ps: seq<Leg>): (r: seq<string>)
    ensures |r| == |ps|
    ensures forall k :: 0 <= k < |r| ==> r[k] == Triple(columns, ps[k])
  {
    seq(|ps|, k requires 0 <= k < |ps| => Triple(columns, ps[k]))
  }

  /** The `{from: ...}` instruction: the raw shots in order, separated by ", ". */
  function PromotedFrom(columns: Columns, ps: seq<Leg>): string
  {
    "{from: " + Join(Triples(columns, ps), ", ") + "}"
  }

  /**
   * What follows the five columns: nothing for a leg that was neither
   * promoted nor leads to a commented station; otherwise a tab, "; ", then
   * the instruction of a promoted leg, then the escaped station comment.
   */
  function Annotation(columns: Columns, leg: Leg, toComment: string): (r: string)
    ensures r != "" <==> leg.WasPromoted() || toComment != ""
    ensures r != "" ==> |r| >= 3 && r[..3] == "\t; "
  {
    if leg.WasPromoted() || toComment != "" then
      "\t; " + (if leg.WasPromoted() then " " + PromotedFrom(columns, leg.promotedFrom) else "")
        + (if toComment != "" then " " + FormatComment(toComment) else "")
    else ""
  }

  /** The line formatEntry writes for one element of the list. */
  function EntryText(columns: Columns, le: ListedLeg): string
  {
    Join(DataFields(columns, le.entry), "\t") + "\t" + Annotation(columns, Oriented(le.entry).leg, le.toComment)
  }

  /** Three strings joined by spaces. */
  lemma JoinThree(a: string, b: string, c: string)
    ensures Join([a, b, c], " ") == a + " " + b + " " + c
  {
    var words := [a, b, c];
    assert Join(words[2..], " ") == c;
    assert Join(words[1..], " ") == b + " " + c by { assert words[1..][1..] == words[2..]; }
  }

  /** The instruction's list of shots, grown by one shot: ", " and the shot at the end, or the shot alone. */
  lemma TriplesPrefix(columns: Columns, ps: seq<Leg>, i: nat)
    requires i <= |ps|
    ensures i == 0 ==> Join(Triples(columns, ps[..i]), ", ") == ""
    ensures i < |ps| ==>
      var p := ps[i];
      var t := columns.distance(p.distance) + " " + columns.azimuth(p.azimuth) + " " + columns.inclination(p.inclination);
      Join(Triples(columns, ps[..i + 1]), ", ") == if i == 0 then t else Join(Triples(columns, ps[..i]), ", ") + ", " + t
  {
    if i < |ps| {
      var p := ps[i];
      JoinThree(columns.distance(p.distance), columns.azimuth(p.azimuth), columns.inclination(p.inclination));
      assert Triples(columns, ps[..i + 1]) == Triples(columns, ps[..i]) + [Triple(columns, p)];
      JoinAppend(Triples(columns, ps[..i]), Triple(columns, p), ", ");
    }
  }

  /** formatPromotedFrom: a loop with a flag that puts ", " before every shot but the first. */
  method FormatPromotedFrom(builder: string, columns: Columns, precursors: seq<Leg>) returns (builder': string)
    ensures builder' == builder + PromotedFrom(columns, precursors)
  {
    hide Join, Triples;
    builder' := builder + "{from: ";
    var first := true;
    TriplesPrefix(columns, precursors, 0);
    for i := 0 to |precursors|
      invariant first <==> i == 0
      invariant builder' == builder + "{from: " + Join(Triples(columns, precursors[..i]), ", ")
    {
      TriplesPrefix(columns, precursors, i);
      if first {
        first := false;
      } else {
        builder' := builder' + ", ";
      }
      var p := precursors[i];
      builder' := builder' + columns.distance(p.distance) + " " + columns.azimuth(p.azimuth) + " " + columns.inclination(p.inclination);
    }
    assert precursors[..|precursors|] == precursors;
    builder' := builder' + "}";
  }

  /** The five columns, each followed by a tab. */
  lemma DataFieldsText(columns: Columns, e: SurveyListEntry)
    ensures var o := Oriented(e);
      Join(DataFields(columns, e), "\t") + "\t" ==
      o.fromName + "\t" + ToField(o.toName) + "\t" + columns.distance(o.leg.distance) + "\t" +
      columns.azimuth(o.leg.azimuth) + "\t" + columns.inclination(o.leg.inclination) + "\t"
  {
    var o := Oriented(e);
    JoinFive(o.fromName, ToField(o.toName), columns.distance(o.leg.distance), columns.azimuth(o.leg.azimuth),
      columns.inclination(o.leg.inclination));
  }

  /** formatEntry, appending to the builder. */
  method FormatEntry(builder: string, columns: Columns, le: ListedLeg) returns (builder': string)
    ensures builder' == builder + EntryText(columns, le)
  {
    hide Oriented, Reverse, DataFields, Join, Annotation;
    var fromName := le.entry.fromName;
    var leg := le.entry.leg;
    var toName := le.entry.toName;
    if leg.wasShotBackwards {
      leg := Reverse(leg);
      fromName := le.entry.toName;
      toName := le.entry.fromName;
    }
    if toName == BlankStationName {
      toName := "";
    }
    ghost var o := Oriented(le.entry);
    assert fromName == o.fromName && toName == ToField(o.toName) && leg == o.leg;
    var fields := fromName + "\t" + toName + "\t" + columns.distance(leg.distance) + "\t" +
      columns.azimuth(leg.azimuth) + "\t" + columns.inclination(leg.inclination) + "\t";
    DataFieldsText(columns, le.entry);
    assert fields == Join(DataFields(columns, le.entry), "\t") + "\t";
    builder' := builder + fields;
    builder' := AppendAnnotation(builder', columns, leg, le.toComment);
  }

  /** The tail of formatEntry: the comment holding the instruction and the station comment, when either applies. */
  method AppendAnnotation(builder: string, columns: Columns, leg: Leg, toComment: string) returns (builder': string)
    ensures builder' == builder + Annotation(columns, leg, toComment)
  {
    hide PromotedFrom, FormatComment;
    builder' := builder;
    if leg.WasPromoted() || toComment != "" {
      builder' := builder' + "\t; ";
      if leg.WasPromoted() {
        builder' := builder' + " ";
        builder' := FormatPromotedFrom(builder', columns, leg.promotedFrom);
      }
      if toComment != "" {
        builder' := builder' + " " + FormatComment(toComment);
      }
    }
  }

  // ---- exportData -------------------------------------------------------------

  function EntryTexts(columns: Columns, entries: seq<ListedLeg>): (r: seq<string>)
    ensures |r| == |entries|
    ensures forall k :: 0 <= k < |r| ==> r[k] == EntryText(columns, entries[k])
  {
    seq(|entries|, k requires 0 <= k < |entries| => EntryText(columns, entries[k]))
  }

  /** The DATA section: its heading, then each entry's line. */
  function DataText(columns: Columns, entries: seq<ListedLeg>): string
  {
    "DATA\n" + Lines(EntryTexts(columns, entries))
  }

  lemma DataTextStep(columns: Columns, entries: seq<ListedLeg>, i: nat)
    requires i < |entries|
    ensures Lines(EntryTexts(columns, entries[..i + 1])) == Lines(EntryTexts(columns, entries[..i])) + EntryText(columns, entries[i]) + "\n"
  {
    hide EntryText;
    assert EntryTexts(columns, entries[..i + 1]) == EntryTexts(columns, entries[..i]) + [EntryText(columns, entries[i])];
    LinesAppend(EntryTexts(columns, entries[..i]), EntryText(columns, entries[i]));
  }

  /** exportData over the chronological list. */
  method ExportData(columns: Columns, entries: seq<ListedLeg>) returns (text: string)
    ensures text == DataText(columns, entries)
  {
    hide EntryText, EntryTexts, Lines;
    text := "DATA\n";
    LinesEmpty(EntryTexts(columns, entries[..0]));
    for i := 0 to |entries|
      invariant text == "DATA\n" + Lines(EntryTexts(columns, entries[..i]))
    {
      text := FormatEntry(text, columns, entries[i]);
      text := text + "\n";
      DataTextStep(columns, entries, i);
    }
    assert entries[..|entries|] == entries;
  }

  // ---- reading the instruction back ---------------------------------------------

  predicate IsNumeralChar(c: char) { IsDigit(c) || c == '.' || c == '-' }

  /** A reading as TableCol writes it for Locale.UK: digits, a decimal point, a minus sign. */
  predicate IsNumeral(w: string)
  {
    w != "" && forall k :: 0 <= k < |w| ==> IsNumeralChar(w[k])
  }

  predicate NumeralReadings(columns: Columns, leg: Leg)
  {
    forall j :: 0 <= j < 3 ==> IsNumeral(Readings(columns, leg)[j])
  }

  /** Raw shots whose readings are all written as numerals. */
  predicate NumeralShots(columns: Columns, ps: seq<Leg>)
  {
    forall k :: 0 <= k < |ps| ==> NumeralReadings(columns, ps[k])
  }

  /** Raw shots whose written readings are all numbers to the parser. */
  predicate ReadableShots(columns: Columns, parse: NumberParser, ps: seq<Leg>)
  {
    forall k :: 0 <= k < |ps| ==> Readable(columns, parse, ps[k])
  }

  /** No character that opens or closes an instruction or a comment, ends a column or ends a line. */
  predicate Unbroken(s: string)
  {
    forall k :: 0 <= k < |s| ==>
      s[k] != '{' && s[k] != '}' && s[k] != ';' && s[k] != '\t' && !IsLineTerminator(s[k])
  }

  lemma NumeralUnbroken(w: string)
    requires IsNumeral(w)
    ensures IsWord(w) && Unbroken(w) && ',' !in w
  {
  }

  lemma {:induction false} JoinUnbroken(parts: seq<string>, sep: string)
    requires Unbroken(sep) && forall k :: 0 <= k < |parts| ==> Unbroken(parts[k])
    ensures Unbroken(Join(parts, sep))
  {
    if |parts| > 1 {
      JoinUnbroken(parts[1..], sep);
      var r := Join(parts[1..], sep);
      var j := parts[0] + sep + r;
      assert Join(parts, sep) == j;
      forall k | 0 <= k < |j|
        ensures j[k] != '{' && j[k] != '}' && j[k] != ';' && j[k] != '\t' && !IsLineTerminator(j[k])
      {
        if k < |parts[0]| {
          assert j[k] == parts[0][k];
        } else if k < |parts[0]| + |sep| {
          assert j[k] == sep[k - |parts[0]|];
        } else {
          assert j[k] == r[k - |parts[0]| - |sep|];
        }
      }
    }
  }

  /** A shot's readings spaced out: trimmed, unbroken, and cut at white space into the readings. */
  lemma TripleShape(columns: Columns, p: Leg)
    requires NumeralReadings(columns, p)
    ensures var t := Triple(columns, p);
      t != "" && IsTrimmed(t) && Unbroken(t) && ',' !in t && SplitWs(t) == Readings(columns, p)
  {
    var words := Readings(columns, p);
    forall j | 0 <= j < 3 ensures IsWord(words[j]) && Unbroken(words[j]) && ',' !in words[j] {
      NumeralUnbroken(words[j]);
    }
    JoinWithout(words, " ", ',');
    WordsTrimmed(words);
    JoinEnds(words, " ");
    JoinUnbroken(words, " ");
    TokensOfJoinedWords(words, ' ');
    var t := Join(words, " ");
    assert !IsSpace(t[0]) by { if IsSpace(t[0]) { SpaceIsBlank(t[0]); } }
  }

  /** One shot of the instruction, with or without the space after the comma, reads as the shot's readings. */
  lemma ShotRead(columns: Columns, parse: NumberParser, p: Leg, pad: string)
    requires NumeralReadings(columns, p) && Readable(columns, parse, p)
    requires pad == "" || pad == " "
    ensures ParseShot(pad + Triple(columns, p), parse) == Ok(Reread(columns, parse, p))
  {
    var t := Triple(columns, p);
    TripleShape(columns, p);
    TrimOfPadded(pad, t);
  }

  /** Each text after the first with the space that follows its comma. */
  function Spaced(ts: seq<string>): (r: seq<string>)
    ensures |r| == |ts|
    ensures forall k :: 0 <= k < |r| ==> r[k] == " " + ts[k]
  {
    seq(|ts|, k requires 0 <= k < |ts| => " " + ts[k])
  }

  /** Texts joined by ", " come apart at the commas, each but the first keeping its leading space. */
  lemma {:induction false} SplitCommaJoined(pad: string, ts: seq<string>)
    requires ts != [] && ',' !in pad && forall k :: 0 <= k < |ts| ==> ',' !in ts[k]
    ensures SplitAll(pad + Join(ts, ", "), ',') == [pad + ts[0]] + Spaced(ts[1..])
    decreases |ts|
  {
    if |ts| == 1 {
      assert ',' !in pad + ts[0];
      SplitAllWithout(pad + ts[0], ',');
      assert Spaced(ts[1..]) == [];
    } else {
      var rest := Join(ts[1..], ", ");
      assert pad + Join(ts, ", ") == (pad + ts[0]) + [','] + (" " + rest);
      assert ',' !in pad + ts[0];
      SplitAllAt(pad + ts[0], ',', " " + rest);
      SplitCommaJoined(" ", ts[1..]);
      assert Spaced(ts[1..]) == [" " + ts[1..][0]] + Spaced(ts[1..][1..]);
    }
  }

  /** String.split(",") of texts joined by ", ": the texts, each but the first with its leading space. */
  lemma SplitCommaPieces(ts: seq<string>)
    requires ts != [] && forall k :: 0 <= k < |ts| ==> ts[k] != "" && ',' !in ts[k]
    ensures SplitChar(Join(ts, ", "), ',') == [ts[0]] + Spaced(ts[1..])
  {
    hide Join, SplitAll, SplitChar, Spaced;
    var j := Join(ts, ", ");
    SplitCommaJoined("", ts);
    assert "" + j == j && "" + ts[0] == ts[0];
    var pieces := [ts[0]] + Spaced(ts[1..]);
    assert SplitAll(j, ',') == pieces;
    assert pieces[|pieces| - 1] != "" by {
      if |ts| > 1 {
        assert pieces[|pieces| - 1] == " " + ts[|ts| - 1];
      }
    }
    SplitCharAll(j, ',');
  }

  /** The instruction is "{from: " and the shots, trimmed and unbroken, then "}". */
  lemma InstructionShape(columns: Columns, ps: seq<Leg>)
    requires ps != [] && NumeralShots(columns, ps)
    ensures var j := Join(Triples(columns, ps), ", ");
      j != "" && IsTrimmed(j) && Unbroken(j) && PromotedFrom(columns, ps) == "{" + "from" + ":" + (" " + j) + "}"
  {
    hide Triple, Join;
    var ts := Triples(columns, ps);
    forall k | 0 <= k < |ts| ensures ts[k] != "" && IsTrimmed(ts[k]) && Unbroken(ts[k]) {
      TripleShape(columns, ps[k]);
    }
    JoinEnds(ts, ", ");
    JoinUnbroken(ts, ", ");
  }

  /** The shots of the instruction, after "from:", read as one plain shot per raw shot. */
  lemma ShotsRead(columns: Columns, parse: NumberParser, ps: seq<Leg>)
    requires ps != [] && NumeralShots(columns, ps) && ReadableShots(columns, parse, ps)
    ensures var j := Join(Triples(columns, ps), ", ");
      j != "" && IsTrimmed(j) && Unbroken(j) && ParseFrom(" " + j, parse) == Ok(Rereads(columns, parse, ps))
  {
    hide Triple, ParseShot, Join, SplitAll, SplitChar, ParseShots, Trim, Spaced, Reread, Readable;
    var ts := Triples(columns, ps);
    forall k | 0 <= k < |ts| ensures ts[k] != "" && IsTrimmed(ts[k]) && Unbroken(ts[k]) && ',' !in ts[k] {
      TripleShape(columns, ps[k]);
    }
    var j := Join(ts, ", ");
    JoinEnds(ts, ", ");
    JoinUnbroken(ts, ", ");
    TrimOfPadded(" ", j);
    var pieces := [ts[0]] + Spaced(ts[1..]);
    SplitCommaPieces(ts);
    assert SplitChar(Trim(" " + j), ',') == pieces;
    forall k | 0 <= k < |pieces| ensures ParseShot(pieces[k], parse) == Ok(Reread(columns, parse, ps[k])) {
      if k == 0 {
        ShotRead(columns, parse, ps[0], "");
        assert "" + Triple(columns, ps[0]) == pieces[0];
      } else {
        ShotRead(columns, parse, ps[k], " ");
        assert pieces[k] == " " + ts[k];
      }
    }
    ParseShotsEach(pieces, parse);
    var read := ParseShots(pieces, parse);
    assert read.Ok?;
    assert |read.value| == |ps|;
    assert forall k :: 0 <= k < |ps| ==> read.value[k] == Rereads(columns, parse, ps)[k];
    assert read.value == Rereads(columns, parse, ps);
  }

  /**
   * The `{from: ...}` instruction of a promoted leg reads back, through the
   * importer's instruction parser, as one plain shot per raw shot, in
   * order, carrying the parsed readings.
   */
  lemma PromotedFromRead(columns: Columns, parse: NumberParser, ps: seq<Leg>)
    requires ps != [] && NumeralShots(columns, ps) && ReadableShots(columns, parse, ps)
    ensures ParseInstruction(PromotedFrom(columns, ps), parse) == Ok(Rereads(columns, parse, ps))
  {
    hide ParseFrom, Join, Triples, ParseInstruction;
    var j := Join(Triples(columns, ps), ", ");
    ShotsRead(columns, parse, ps);
    InstructionShape(columns, ps);
    var shots := " " + j;
    assert IsInstructionText("from", shots);
    ParseInstructionOf("from", shots, parse);
  }

  // ---- what a reader gets back from an entry's line --------------------------------

  /**
   * An entry whose five columns hold no tab, line feed or comment character,
   * and whose raw shots, when the leg was promoted, are written as numerals.
   */
  predicate Plain(columns: Columns, le: ListedLeg)
  {
    var fields := DataFields(columns, le.entry);
    var leg := Oriented(le.entry).leg;
    (forall k :: 0 <= k < 5 ==> '\t' !in fields[k] && '\n' !in fields[k] && ';' !in fields[k] && '#' !in fields[k]) &&
    (leg.WasPromoted() ==> NumeralShots(columns, leg.promotedFrom))
  }

  /**
   * Cut at its tabs, an entry's line gives its five columns, then an empty
   * column, then, exactly when the leg was promoted or its destination
   * station has a comment, the comment opening with "; ". A leg shot
   * backwards is written from its far end with its station names swapped,
   * and a splay's destination column is empty.
   */
  lemma EntryColumns(columns: Columns, le: ListedLeg)
    requires Plain(columns, le)
    ensures var cols := SplitAll(EntryText(columns, le), '\t');
      |cols| >= 6 && cols[..5] == DataFields(columns, le.entry) && cols[5] == ""
    ensures var cols := SplitAll(EntryText(columns, le), '\t');
      |cols| > 6 <==> le.entry.leg.WasPromoted() || le.toComment != ""
    ensures var cols := SplitAll(EntryText(columns, le), '\t');
      |cols| > 6 ==> StartsWith(cols[6], "; ")
    ensures var cols := SplitAll(EntryText(columns, le), '\t'); var e := le.entry;
      e.leg.wasShotBackwards ==>
        cols[0] == e.toName && cols[1] == ToField(e.fromName) && cols[2..5] == Readings(columns, Reverse(e.leg))
    ensures var cols := SplitAll(EntryText(columns, le), '\t'); var e := le.entry;
      !e.leg.wasShotBackwards ==>
        cols[0] == e.fromName && cols[1] == ToField(e.toName) && cols[2..5] == Readings(columns, e.leg)
  {
    hide Annotation, Join, SplitAll, Readings, Reverse;
    var fields := DataFields(columns, le.entry);
    var leg := Oriented(le.entry).leg;
    var a := Annotation(columns, leg, le.toComment);
    assert forall k :: 0 <= k < |fields| ==> '\t' !in fields[k];
    SplitAllJoined(fields, '\t', a);
    assert EntryText(columns, le) == Join(fields, "\t") + ['\t'] + a;
    var cols := SplitAll(EntryText(columns, le), '\t');
    assert cols == fields + SplitAll(a, '\t');
    if a == "" {
      SplitAllWithout(a, '\t');
    } else {
      var rest := a[1..];
      assert a == [] + ['\t'] + rest;
      SplitAllAt([], '\t', rest);
      assert rest == "; " + rest[2..];
      SplitAllFirst("; ", '\t', rest[2..]);
      assert cols[6] == SplitAll(rest, '\t')[0];
    }
    assert cols[..5] == fields;
  }

  /** The instruction is "{", a body on one line without '}', then "}". */
  lemma InstructionBody(columns: Columns, ps: seq<Leg>) returns (body: string)
    requires ps != [] && NumeralShots(columns, ps)
    ensures PromotedFrom(columns, ps) == "{" + body + "}"
    ensures '}' !in body && forall k :: 0 <= k < |body| ==> !IsLineTerminator(body[k])
  {
    hide PromotedFrom, Join, Triples;
    var j := Join(Triples(columns, ps), ", ");
    InstructionShape(columns, ps);
    body := "from: " + j;
    assert forall k :: 0 <= k < |body| ==> body[k] != '}' && !IsLineTerminator(body[k]) by {
      forall k | 0 <= k < |body| ensures body[k] != '}' && !IsLineTerminator(body[k]) {
        if k >= 6 {
          assert body[k] == j[k - 6];
        }
      }
    }
  }

  /**
   * After "; " comes an instruction, then possibly a remark: the comment
   * reader finds that instruction first, and striking it out leaves the
   * remark.
   */
  lemma InstructionThenRemark(data: string, body: string, remark: string)
    requires ';' !in data && '}' !in body && forall k :: 0 <= k < |body| ==> !IsLineTerminator(body[k])
    requires IsTrimmed(remark) && '{' !in remark
    ensures var p := "{" + body + "}";
      var tail := if remark != "" then " " + remark else "";
      var comment := LineComment(data + "\t; " + " " + p + tail);
      CommentInstruction(comment) == p && StrippedComment(comment, p) == remark
  {
    hide LineComment, CommentInstruction, StrippedComment;
    var p := "{" + body + "}";
    var tail := if remark != "" then " " + remark else "";
    var text := p + tail;
    assert IsTrimmed(text) by {
      assert text[0] == '{';
      if remark == "" { assert text == p; } else { assert text[|text| - 1] == remark[|remark| - 1]; }
    }
    assert data + "\t; " + " " + p + tail == (data + "\t") + ";" + "  " + text;
    assert ';' !in data + "\t";
    LineCommentOf(data + "\t", "  ", text);
    assert "" + "{" + body + "}" + tail == text;
    CommentInstructionOf("", body, tail);
    if remark != "" {
      StrippedCommentOf(p, " ", remark);
      assert p + " " + remark == text;
    } else {
      StrippedCommentOf(p, "", "");
      assert p + "" + "" == text;
    }
  }

  /** The comment of a leg, case by case: the instruction first, then the escaped station comment. */
  lemma AnnotationCases(columns: Columns, leg: Leg, toComment: string)
    ensures var fc := FormatComment(toComment);
      leg.WasPromoted() ==>
        Annotation(columns, leg, toComment) ==
        "\t; " + " " + PromotedFrom(columns, leg.promotedFrom) + (if fc != "" then " " + fc else "")
    ensures !leg.WasPromoted() && toComment != "" ==> Annotation(columns, leg, toComment) == "\t; " + " " + FormatComment(toComment)
    ensures !leg.WasPromoted() && toComment == "" ==> Annotation(columns, leg, toComment) == ""
  {
    hide PromotedFrom, FormatComment;
    FormatCommentEmpty(toComment);
  }

  /** A comment that is not empty is not empty once escaped. */
  lemma FormatCommentEmpty(comment: string)
    ensures FormatComment(comment) == "" <==> comment == ""
  {
  }

  /** What the comment reader gets back from a line: its remark and its inline shots. */
  predicate ReadsBack(line: string, parse: NumberParser, remark: string, shots: seq<Leg>)
  {
    var comment := LineComment(line);
    var instruction := CommentInstruction(comment);
    StrippedComment(comment, instruction) == remark && InlinePromoted(instruction, parse) == shots
  }

  /** The line of a promoted leg gives back its shots and then its comment. */
  lemma PromotedLineRead(columns: Columns, parse: NumberParser, data: string, leg: Leg, toComment: string)
    requires ';' !in data && '#' !in data
    requires leg.WasPromoted() && NumeralShots(columns, leg.promotedFrom) && ReadableShots(columns, parse, leg.promotedFrom)
    requires toComment != "" ==> IsTrimmed(FormatComment(toComment)) && '{' !in FormatComment(toComment)
    ensures ReadsBack(data + Annotation(columns, leg, toComment), parse, FormatComment(toComment), Rereads(columns, parse, leg.promotedFrom))
  {
    hide PromotedFrom, FormatComment, LineComment, CommentInstruction, StrippedComment, InlinePromoted, Rereads, Annotation,
      NumeralShots, ReadableShots;
    var fc := FormatComment(toComment);
    var p := PromotedFrom(columns, leg.promotedFrom);
    var tail := if fc != "" then " " + fc else "";
    FormatCommentEmpty(toComment);
    assert IsTrimmed(fc) && '{' !in fc;
    assert data + Annotation(columns, leg, toComment) == data + "\t; " + " " + p + tail by {
      AnnotationCases(columns, leg, toComment);
    }
    var body := InstructionBody(columns, leg.promotedFrom);
    PromotedFromRead(columns, parse, leg.promotedFrom);
    InstructionThenRemark(data, body, fc);
  }

  /** The line of a leg that was not promoted gives back no shots and its comment. */
  lemma UnpromotedLineRead(columns: Columns, parse: NumberParser, data: string, leg: Leg, toComment: string)
    requires ';' !in data && '#' !in data
    requires !leg.WasPromoted()
    requires toComment != "" ==> IsTrimmed(FormatComment(toComment)) && '{' !in FormatComment(toComment)
    ensures ReadsBack(data + Annotation(columns, leg, toComment), parse, FormatComment(toComment), [])
  {
    hide PromotedFrom, FormatComment, LineComment, CommentInstruction, StrippedComment, InlinePromoted, Rereads, Annotation;
    var fc := FormatComment(toComment);
    FormatCommentEmpty(toComment);
    AnnotationCases(columns, leg, toComment);
    if toComment != "" {
      assert data + Annotation(columns, leg, toComment) == (data + "\t") + ";" + "  " + fc;
      assert ';' !in data + "\t";
      LineCommentOf(data + "\t", "  ", fc);
      CommentInstructionWithoutBrace(fc);
      ParseInstructionIsPlain("", parse);
    } else {
      assert data + Annotation(columns, leg, toComment) == data;
      assert LineComment(data) == "";
      FormatCommentWithoutBreaks(toComment);
    }
  }

  /** The comment reader on the columns' text followed by the comment of a leg. */
  lemma AnnotationRead(columns: Columns, parse: NumberParser, data: string, leg: Leg, toComment: string)
    requires ';' !in data && '#' !in data
    requires leg.WasPromoted() ==> NumeralShots(columns, leg.promotedFrom) && ReadableShots(columns, parse, leg.promotedFrom)
    requires toComment != "" ==> IsTrimmed(FormatComment(toComment)) && '{' !in FormatComment(toComment)
    ensures ReadsBack(data + Annotation(columns, leg, toComment), parse, FormatComment(toComment),
      if leg.WasPromoted() then Rereads(columns, parse, leg.promotedFrom) else [])
  {
    if leg.WasPromoted() {
      PromotedLineRead(columns, parse, data, leg, toComment);
    } else {
      UnpromotedLineRead(columns, parse, data, leg, toComment);
    }
  }

  /**
   * Read by the Survex/Therion importer's comment reader, an entry's line
   * gives back the raw shots of a promoted leg, in order, as its inline
   * instruction, and the escaped comment of the destination station as the
   * station comment: the instruction comes first and does not swallow the
   * comment.
   */
  lemma EntryCommentRead(columns: Columns, parse: NumberParser, le: ListedLeg)
    requires Plain(columns, le)
    requires Oriented(le.entry).leg.WasPromoted() ==> ReadableShots(columns, parse, Oriented(le.entry).leg.promotedFrom)
    requires le.toComment != "" ==> IsTrimmed(FormatComment(le.toComment)) && '{' !in FormatComment(le.toComment)
    ensures var leg := Oriented(le.entry).leg;
      ReadsBack(EntryText(columns, le), parse, FormatComment(le.toComment),
        if leg.WasPromoted() then Rereads(columns, parse, leg.promotedFrom) else [])
  {
    hide PromotedFrom, FormatComment, LineComment, CommentInstruction, StrippedComment, InlinePromoted, Rereads, Join,
      Oriented, DataFields, Annotation;
    var fields := DataFields(columns, le.entry);
    var data := Join(fields, "\t") + "\t";
    JoinWithout(fields, "\t", ';');
    JoinWithout(fields, "\t", '#');
    AnnotationRead(columns, parse, data, Oriented(le.entry).leg, le.toComment);
  }

  /** The comment part of an entry's line holds no line feed. */
  lemma AnnotationOneLine(columns: Columns, leg: Leg, toComment: string)
    requires leg.WasPromoted() ==> NumeralShots(columns, leg.promotedFrom)
    ensures '\n' !in Annotation(columns, leg, toComment)
  {
    hide PromotedFrom, FormatComment, Annotation, NumeralShots;
    AnnotationCases(columns, leg, toComment);
    var fc := FormatComment(toComment);
    assert forall k :: 0 <= k < |fc| ==> fc[k] != '\n';
    if leg.WasPromoted() {
      var body := InstructionBody(columns, leg.promotedFrom);
      assert forall k :: 0 <= k < |body| ==> body[k] != '\n';
    }
  }

  /** An entry fills exactly one line: it is not empty and holds no line feed. */
  lemma EntryTextOneLine(columns: Columns, le: ListedLeg)
    requires Plain(columns, le)
    ensures EntryText(columns, le) != "" && '\n' !in EntryText(columns, le)
  {
    hide Oriented, DataFields, Annotation, Join;
    var fields := DataFields(columns, le.entry);
    JoinWithout(fields, "\t", '\n');
    AnnotationOneLine(columns, Oriented(le.entry).leg, le.toComment);
    var data := Join(fields, "\t") + "\t";
    assert EntryText(columns, le) == data + Annotation(columns, Oriented(le.entry).leg, le.toComment);
  }

  predicate AllPlain(columns: Columns, entries: seq<ListedLeg>)
  {
    forall k :: 0 <= k < |entries| ==> Plain(columns, entries[k])
  }

  /**
   * Split at its line feeds as String.split does, the DATA block is its
   * heading and then one line per entry, in order.
   */
  lemma DataLines(columns: Columns, entries: seq<ListedLeg>)
    requires AllPlain(columns, entries)
    ensures SplitChar(DataText(columns, entries), '\n') == ["DATA"] + EntryTexts(columns, entries)
  {
    hide EntryText, Plain;
    var texts := EntryTexts(columns, entries);
    var ls := ["DATA"] + texts;
    forall k | 0 <= k < |ls|
      ensures '\n' !in ls[k] && ls[k] != ""
    {
      if k > 0 {
        EntryTextOneLine(columns, entries[k - 1]);
      }
    }
    assert ls[1..] == texts;
    assert Lines(ls) == DataText(columns, entries);
    SplitCharLines(ls);
  }

  /** The date written in place of a trip's date when the survey has none. */
  const EpochDate: string := "1970-01-01"

  const DeclinationLine: string := "DECLINATION" + "\t" + "0.00"

  /** The date on the DATE line: the trip's, or the epoch when there is no trip. */
  function TripDate(date: Option<string>): (r: string)
    ensures date.Some? ==> r == date.value
    ensures date.None? ==> r == EpochDate
  {
    match date
    case Some(d) => d
    case None => EpochDate
  }

  /**
   * The header as written: after the epoch date comes a line feed of its
   * own, and then the line feed every date gets.
   */
  function HeaderAsWritten(date: Option<string>): string
  {
    "TRIP\n" + "DATE " + (match date case Some(d) => d case None => EpochDate + "\n") + "\n" + DeclinationLine + "\n"
  }

  /** The header: one TRIP line, one DATE line, one DECLINATION line. */
  function Header(date: Option<string>): string
  {
    "TRIP\n" + "DATE " + TripDate(date) + "\n" + DeclinationLine + "\n"
  }

  function HeaderLines(date: Option<string>): (r: seq<string>)
    ensures |r| == 3 && r[0] == "TRIP" && r[1] == "DATE " + TripDate(date) && r[2] == DeclinationLine
  {
    ["TRIP", "DATE " + TripDate(date), DeclinationLine]
  }

  lemma HeaderIsLines(date: Option<string>)
    ensures Header(date) == Lines(HeaderLines(date))
  {
    var ls := HeaderLines(date);
    assert ls[1..][1..][1..] == [];
    assert Lines(ls[1..][1..]) == DeclinationLine + "\n";
  }

  /** With a date of one line, the header is exactly three lines. */
  lemma HeaderThreeLines(date: Option<string>)
    requires date.Some? ==> '\n' !in date.value
    ensures SplitChar(Header(date), '\n') == HeaderLines(date)
  {
    var ls := HeaderLines(date);
    HeaderIsLines(date);
    assert '\n' !in DeclinationLine;
    assert '\n' !in EpochDate;
    SplitCharLines(ls);
  }

  /** Given a trip, the header as written is the header. */
  lemma HeaderAsWrittenWithTrip(d: string)
    ensures HeaderAsWritten(Some(d)) == Header(Some(d))
  {
  }

  lemma LinesOfFour(a: string, b: string, c: string, d: string)
    ensures Lines([a, b, c, d]) == a + "\n" + b + "\n" + c + "\n" + d + "\n"
  {
    var ls := [a, b, c, d];
    assert ls[1..] == [b, c, d] && ls[1..][1..] == [c, d] && ls[1..][1..][1..] == [d];
    assert ls[1..][1..][1..][1..] == [];
    assert Lines([d]) == d + "\n";
    assert Lines([c, d]) == c + "\n" + (d + "\n");
    assert Lines([b, c, d]) == b + "\n" + (c + "\n" + (d + "\n"));
  }

  /** Without a trip, the header as written has an empty line after the date. */
  lemma HeaderAsWrittenWithoutTrip()
    ensures SplitChar(HeaderAsWritten(None), '\n') == ["TRIP", "DATE " + EpochDate, "", DeclinationLine]
    ensures SplitChar(Header(None), '\n') == ["TRIP", "DATE " + EpochDate, DeclinationLine]
  {
    hide Lines, SplitChar, Header;
    var ls := ["TRIP", "DATE " + EpochDate, "", DeclinationLine];
    assert '\n' !in EpochDate;
    assert '\n' !in DeclinationLine;
    LinesOfFour("TRIP", "DATE " + EpochDate, "", DeclinationLine);
    assert "TRIP\n" == "TRIP" + "\n";
    assert HeaderAsWritten(None) == Lines(ls);
    SplitCharLines(ls);
    HeaderThreeLines(None);
  }

  /**
   * The whole text: header, DATA block, then the plan and the extended
   * elevation sketches, each after a line feed of its own.
   */
  function Content(columns: Columns, date: Option<string>, entries: seq<ListedLeg>, plan: string, elevation: string): string
  {
    Header(date) + DataText(columns, entries) + "\n" + plan + "\n" + elevation
  }

  method GetContent(columns: Columns, date: Option<string>, entries: seq<ListedLeg>, plan: string, elevation: string)
    returns (text: string)
    ensures text == Content(columns, date, entries, plan, elevation)
  {
    hide DataText;
    text := "TRIP\n";
    text := text + "DATE ";
    match date {
      case Some(d) =>
        text := text + d;
      case None =>
        text := text + EpochDate;
    }
    text := text + "\n";
    text := text + DeclinationLine + "\n";
    assert text == Header(date);
    var data := ExportData(columns, entries);
    text := text + data + "\n";
    text := text + plan + "\n";
    text := text + elevation;
  }

  /** The text is its lines up to the end of the DATA block, then the rest. */
  lemma ContentIsLines(columns: Columns, date: Option<string>, entries: seq<ListedLeg>, plan: string, elevation: string)
    returns (ls: seq<string>)
    requires date.Some? ==> '\n' !in date.value
    requires AllPlain(columns, entries)
    ensures ls == HeaderLines(date) + ["DATA"] + EntryTexts(columns, entries)
    ensures forall k :: 0 <= k < |ls| ==> '\n' !in ls[k]
    ensures Content(columns, date, entries, plan, elevation) == Lines(ls) + ("\n" + plan + "\n" + elevation)
  {
    hide EntryText, Plain, Header, HeaderLines, EntryTexts;
    var texts := EntryTexts(columns, entries);
    ls := HeaderLines(date) + ["DATA"] + texts;
    forall k | 0 <= k < |ls|
      ensures '\n' !in ls[k]
    {
      if k < 3 {
        assert '\n' !in DeclinationLine;
        assert '\n' !in EpochDate;
      } else if k > 3 {
        EntryTextOneLine(columns, entries[k - 4]);
      }
    }
    HeaderIsLines(date);
    LinesConcat(HeaderLines(date), ["DATA"] + texts);
    assert Lines(["DATA"] + texts) == DataText(columns, entries) by {
      assert (["DATA"] + texts)[1..] == texts;
    }
    assert HeaderLines(date) + (["DATA"] + texts) == ls;
  }

  /**
   * Read line by line, the text starts with the three header lines, the
   * DATA heading and one line per entry, and an empty line then parts the
   * entries from the sketches.
   */
  lemma ContentLines(columns: Columns, date: Option<string>, entries: seq<ListedLeg>, plan: string, elevation: string)
    requires date.Some? ==> '\n' !in date.value
    requires AllPlain(columns, entries)
    ensures var lines := SplitAll(Content(columns, date, entries, plan, elevation), '\n');
      |lines| > 4 + |entries| &&
      lines[..4 + |entries|] == HeaderLines(date) + ["DATA"] + EntryTexts(columns, entries) &&
      lines[4 + |entries|] == ""
  {
    hide Content, Lines, HeaderLines, EntryTexts;
    var ls := ContentIsLines(columns, date, entries, plan, elevation);
    var rest := "\n" + plan + "\n" + elevation;
    SplitAllLines(ls, rest);
    SplitAllAt("", '\n', plan + "\n" + elevation);
    assert "" + ['\n'] + (plan + "\n" + elevation) == rest;
    var lines := ls + SplitAll(rest, '\n');
    assert lines[..|ls|] == ls;
  }
}
