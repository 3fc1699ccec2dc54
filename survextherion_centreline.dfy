/**
 * The centreline reader of the Survex/Therion importer: each data line
 * "from to distance azimuth inclination [; comment]" becomes one leg of the
 * survey, hung from the station already known, so that a leg written from
 * a new station to a known one is stored the other way round and marked as
 * shot backwards.
 *
 * The survey is the value `SurveyState`; the importer's name-to-station map
 * travels with it in `Centreline`. Survey.NULL_STATION, the station a splay
 * points at, is the parameter `nullStation`.
 */
module SurvexTherionCentreline {
  import opened Wrappers
  import opened Text
  import opened Legs
  import opened SurveyModel
  import opened SurvexTherionImporter
  import PocketTopoImporter

  /** SexyTopoConstants.BLANK_STATION_NAME: the "to" of a splay. */
  const BlankStationName: string := "-"

  const LineErrorPrefix: string := "Error importing this line: "

  /** The survey being built and the stations met so far, by name. */
  datatype Centreline = Centreline(s: SurveyState, seen: map<string, StationId>)

  /** Every station met so far belongs to the survey, and so does the null station. */
  predicate Wf(c: Centreline, nullStation: StationId)
  {
    nullStation in c.s.onward && forall n :: n in c.seen ==> c.seen[n] in c.s.onward
  }

  // ---- reading one line -----------------------------------------------------

  /** A data line taken apart: the two station names, the three readings and the comment. */
  datatype LegLine = LegLine(fromName: string, toName: string, distance: real, azimuth: real, inclination: real, comment: string)

  /** What parseCentreline makes of a line: nothing, a failure, or a leg. */
  datatype LineKind = Skipped | Broken | Data(leg: LegLine)

  /** A line parseCentreline passes over: blank, a command ('*') or a comment (';' or '#'). */
  predicate IsPassedOver(line: string)
  {
    var t := Trim(line);
    t == "" || t[0] == '*' || t[0] == ';' || t[0] == '#'
  }

  /**
   * One line: passed over, or split at runs of whitespace into at least
   * five fields whose third to fifth are numbers, or broken.
   */
  function ReadLine(line: string, parse: NumberParser): (r: LineKind)
    ensures r.Skipped? <==> IsPassedOver(line)
    ensures r.Data? ==> r.leg.comment == LineComment(line)
  {
    if IsPassedOver(line) then Skipped
    else
      var fields := SplitWs(Trim(line));
      if |fields| < 5 then Broken
      else
        var d := parse(fields[2]);
        var a := parse(fields[3]);
        var i := parse(fields[4]);
        if d.None? || a.None? || i.None? then Broken
        else Data(LegLine(fields[0], fields[1], d.value, a.value, i.value, LineComment(line)))
  }

  /** A data line is broken exactly when it has fewer than five fields or one of the readings is not a number. */
  lemma ReadLineBroken(line: string, parse: NumberParser)
    requires !IsPassedOver(line)
    ensures var f := SplitWs(Trim(line));
      ReadLine(line, parse).Broken? <==>
        |f| < 5 || parse(f[2]).None? || parse(f[3]).None? || parse(f[4]).None?
  {
  }

  // ---- addLegToSurvey -------------------------------------------------------

  /** nameToStation.get(name), or a new station of that name, registered. */
  function Register(c: Centreline, name: string): (r: (Centreline, StationId))
    ensures r.0.seen == c.seen[name := r.1]
    ensures name in c.seen ==> r == (c, c.seen[name])
    ensures name !in c.seen ==> r.1 == c.s.nextStation && r.0.s == Founded(c.s, name, "", Right)
  {
    if name in c.seen then (c, c.seen[name])
    else (Centreline(Founded(c.s, name, "", Right), c.seen[name := c.s.nextStation]), c.s.nextStation)
  }

  /** Registering a name keeps the stations met so far inside the survey and puts the named one there too. */
  lemma RegisterWf(c: Centreline, name: string, nullStation: StationId)
    requires Wf(c, nullStation)
    ensures Wf(Register(c, name).0, nullStation) && Register(c, name).1 in Register(c, name).0.s.onward
  {
  }

  /**
   * The two ends of the leg: the "from" station is looked up or created
   * first, then the "to" station unless the leg is a splay, whose "to" is
   * the null station.
   */
  function Ends(c: Centreline, nullStation: StationId, fromName: string, toName: string): (r: (Centreline, StationId, StationId))
    requires Wf(c, nullStation)
    ensures Wf(r.0, nullStation) && r.1 in r.0.s.onward && r.2 in r.0.s.onward
    ensures fromName in r.0.seen && r.1 == r.0.seen[fromName]
    ensures toName == BlankStationName ==> r.2 == nullStation && r.0.seen.Keys == c.seen.Keys + {fromName}
    ensures toName != BlankStationName ==> (toName in r.0.seen && r.2 == r.0.seen[toName] &&
      r.0.seen.Keys == c.seen.Keys + {fromName, toName})
    ensures forall n :: n in c.seen ==> n in r.0.seen && r.0.seen[n] == c.seen[n]
  {
    RegisterWf(c, fromName, nullStation);
    var (c1, from) := Register(c, fromName);
    if toName == BlankStationName then (c1, from, nullStation)
    else
      RegisterWf(c1, toName, nullStation);
      var (c2, to) := Register(c1, toName);
      (c2, from, to)
  }

  /** survey.setOrigin when the origin is not yet one of the stations met: the first non-splay leg roots the survey. */
  function Rooted(c: Centreline, isSplay: bool, isBackward: bool, from: StationId, to: StationId): (r: SurveyState)
    ensures r.(origin := c.s.origin) == c.s
    ensures !isSplay && c.s.origin !in c.seen.Values ==> r.origin == (if isBackward then to else from)
    ensures isSplay || c.s.origin in c.seen.Values ==> r.origin == c.s.origin
  {
    if !isSplay && c.s.origin !in c.seen.Values then c.s.(origin := if isBackward then to else from)
    else c.s
  }

  /** The provenance of the leg: the legs of the comment's instruction, or when it gives none the commented repeats. */
  function Provenance(comment: string, repeats: seq<Leg>, parse: NumberParser): (r: seq<Leg>)
    ensures InlinePromoted(CommentInstruction(comment), parse) != [] ==> r == InlinePromoted(CommentInstruction(comment), parse)
    ensures InlinePromoted(CommentInstruction(comment), parse) == [] ==> r == repeats
  {
    var inline := InlinePromoted(CommentInstruction(comment), parse);
    if |inline| == 0 then repeats else inline
  }

  /** The station comment: the line's comment with its instruction struck out. */
  function Remark(comment: string): string
  {
    StrippedComment(comment, CommentInstruction(comment))
  }

  /**
   * The leg to add and the station it hangs from. A backward leg hangs from
   * the "to" station and points at "from", marked as shot backwards; a
   * forward leg hangs from "from" and points at "to", or is a plain splay.
   * The readings are kept as they were written.
   */
  function NewLeg(line: LegLine, isBackward: bool, isSplay: bool, from: StationId, to: StationId, promoted: seq<Leg>): (r: (Leg, StationId))
    ensures r.0.distance == line.distance && r.0.azimuth == line.azimuth && r.0.inclination == line.inclination
    ensures isBackward ==> r.1 == to && r.0.destination == Some(from) && r.0.wasShotBackwards && r.0.promotedFrom == promoted
    ensures !isBackward ==> r.1 == from && !r.0.wasShotBackwards
    ensures !isBackward && isSplay ==> r.0 == Splay(0, line.distance, line.azimuth, line.inclination)
    ensures !isBackward && !isSplay ==> r.0.destination == Some(to) && r.0.promotedFrom == promoted
    ensures r.0.backsightPromotedFrom == []
  {
    if isBackward then (Leg(0, line.distance, line.azimuth, line.inclination, Some(from), true, promoted, []), to)
    else if isSplay then (Splay(0, line.distance, line.azimuth, line.inclination), from)
    else (Leg(0, line.distance, line.azimuth, line.inclination, Some(to), false, promoted, []), from)
  }

  /** The station that receives the comment: "from" for a backward leg, "to" for a forward leg, none for a forward splay. */
  function CommentTarget(isBackward: bool, isSplay: bool, from: StationId, to: StationId): Option<StationId>
  {
    if isBackward then Some(from) else if isSplay then None else Some(to)
  }

  /** station.setComment(comment) when the comment is not empty. */
  function Commented(s: SurveyState, target: Option<StationId>, remark: string): (r: SurveyState)
    ensures r.(comments := s.comments) == s
    ensures target.Some? && remark != "" ==> r.comments == s.comments[target.value := remark]
    ensures target.None? || remark == "" ==> r.comments == s.comments
  {
    if target.Some? && remark != "" then s.(comments := s.comments[target.value := remark]) else s
  }

  /** survey.setActiveStation(station). */
  function Activated(s: SurveyState, st: StationId): (r: SurveyState)
    ensures r.active == st && r.(active := s.active) == s
  {
    s.(active := st)
  }

  /**
   * addLegToSurvey: register the stations, root the survey at the first
   * non-splay leg, strike the instruction out of the comment, pick the
   * provenance, then hang the leg from the known station, which becomes
   * the active one.
   */
  function AddLeg(c: Centreline, nullStation: StationId, line: LegLine, repeats: seq<Leg>, parse: NumberParser): (r: Centreline)
    requires Wf(c, nullStation)
    ensures Wf(r, nullStation)
  {
    var isSplay := line.toName == BlankStationName;
    var isBackward := IsBackwardLeg(line.fromName, line.toName, c.seen);
    var (c1, from, to) := Ends(c, nullStation, line.fromName, line.toName);
    var rooted := Rooted(c1, isSplay, isBackward, from, to);
    var (leg, legFrom) := NewLeg(line, isBackward, isSplay, from, to, Provenance(line.comment, repeats, parse));
    var commented := Commented(rooted, CommentTarget(isBackward, isSplay, from, to), Remark(line.comment));
    Centreline(Activated(Attached(commented, legFrom, leg), legFrom), c1.seen)
  }

  // ---- parseCentreline ------------------------------------------------------

  /** One line of the centreline: passed over, refused with the line quoted, or added as a leg with the repeats under it. */
  function Step(c: Centreline, lines: seq<string>, i: nat, nullStation: StationId, parse: NumberParser): (r: Result<Centreline>)
    requires Wf(c, nullStation) && i < |lines|
    ensures r.Ok? ==> Wf(r.value, nullStation)
  {
    match ReadLine(lines[i], parse)
    case Skipped => Ok(c)
    case Broken => Err(LineErrorPrefix + lines[i])
    case Data(line) =>
      Ok(AddLeg(c, nullStation, line, CommentedRepeats(lines[i + 1..], line.fromName, line.toName, parse), parse))
  }

  /** The lines from i on, in order; the first refused line stops the import, with the lines before it applied. */
  function Run(c: Centreline, lines: seq<string>, i: nat, nullStation: StationId, parse: NumberParser): (r: (Centreline, Option<string>))
    requires Wf(c, nullStation)
    ensures Wf(r.0, nullStation)
    decreases |lines| - i
  {
    if i >= |lines| then (c, None)
    else
      match Step(c, lines, i, nullStation, parse)
      case Err(e) => (c, Some(e))
      case Ok(next) => Run(next, lines, i + 1, nullStation, parse)
  }

  /** parseCentreline on the text cut at every line feed, starting with no station met. */
  function Import(s: SurveyState, text: string, nullStation: StationId, parse: NumberParser): (r: (SurveyState, Option<string>))
    requires nullStation in s.onward
  {
    var r := Run(Centreline(s, map[]), SplitChar(text, '\n'), 0, nullStation, parse);
    (r.0.s, r.1)
  }

  // ---- what a leg does to the survey ----------------------------------------

  /**
   * A leg from a new station to a known one hangs from the known station,
   * points at the new one, keeps its readings and is marked as shot
   * backwards; the new station takes the comment and the known one becomes
   * the active station.
   */
  lemma AddLegBackward(c: Centreline, nullStation: StationId, line: LegLine, repeats: seq<Leg>, parse: NumberParser)
    requires c.s.Valid() && Wf(c, nullStation)
    requires line.fromName !in c.seen && line.toName in c.seen && line.toName != BlankStationName
    ensures var r := AddLeg(c, nullStation, line, repeats, parse);
      var known := c.seen[line.toName];
      var created := c.s.nextStation;
      r.s.onward[known] == c.s.onward[known] +
        [Leg(c.s.nextLeg, line.distance, line.azimuth, line.inclination, Some(created), true, Provenance(line.comment, repeats, parse), [])] &&
      r.s.onward[created] == [] && r.s.names[created] == line.fromName && r.s.comments[created] == Remark(line.comment) &&
      r.s.active == known && r.seen == c.seen[line.fromName := created]
  {
    var known := c.seen[line.toName];
    assert known in c.s.onward;
  }

  /**
   * A leg from a known station to a new one hangs from the known station and
   * points at the new one, which takes the comment; the known station becomes
   * the active one.
   */
  lemma AddLegForward(c: Centreline, nullStation: StationId, line: LegLine, repeats: seq<Leg>, parse: NumberParser)
    requires c.s.Valid() && Wf(c, nullStation)
    requires line.fromName in c.seen && line.toName !in c.seen && line.toName != BlankStationName
    ensures var r := AddLeg(c, nullStation, line, repeats, parse);
      var known := c.seen[line.fromName];
      var created := c.s.nextStation;
      r.s.onward[known] == c.s.onward[known] +
        [Leg(c.s.nextLeg, line.distance, line.azimuth, line.inclination, Some(created), false, Provenance(line.comment, repeats, parse), [])] &&
      r.s.onward[created] == [] && r.s.names[created] == line.toName && r.s.comments[created] == Remark(line.comment) &&
      r.s.active == known && r.seen == c.seen[line.toName := created]
  {
    var known := c.seen[line.fromName];
    assert known in c.s.onward;
  }

  /** A splay from a known station is a plain leg of that station, which becomes active; no comment is set and the origin stays. */
  lemma AddLegSplay(c: Centreline, nullStation: StationId, line: LegLine, repeats: seq<Leg>, parse: NumberParser)
    requires Wf(c, nullStation)
    requires line.fromName in c.seen && line.toName == BlankStationName
    ensures var r := AddLeg(c, nullStation, line, repeats, parse);
      var known := c.seen[line.fromName];
      r.s.onward == c.s.onward[known := c.s.onward[known] + [Splay(c.s.nextLeg, line.distance, line.azimuth, line.inclination)]] &&
      r.s.comments == c.s.comments && r.s.names == c.s.names && r.s.origin == c.s.origin &&
      r.s.active == known && r.seen == c.seen
  {
    assert c.seen[line.fromName := c.seen[line.fromName]] == c.seen;
  }

  /** The first leg of all, between two new stations, roots the survey at its "from" station. */
  lemma FirstLegRoots(c: Centreline, nullStation: StationId, line: LegLine, repeats: seq<Leg>, parse: NumberParser)
    requires c.s.Valid() && Wf(c, nullStation) && c.seen == map[]
    requires line.toName != BlankStationName && line.fromName != line.toName
    ensures AddLeg(c, nullStation, line, repeats, parse).s.origin == c.s.nextStation
  {
    var e := Ends(c, nullStation, line.fromName, line.toName);
    assert c.s.origin < c.s.nextStation;
    assert e.0.seen == map[line.fromName := c.s.nextStation][line.toName := c.s.nextStation + 1];
    assert c.s.origin !in e.0.seen.Values;
    assert !IsBackwardLeg(line.fromName, line.toName, c.seen);
  }

  /** A backward leg met while the survey is not rooted roots it at its known "to" station. */
  lemma BackwardLegRoots(c: Centreline, nullStation: StationId, line: LegLine, repeats: seq<Leg>, parse: NumberParser)
    requires c.s.Valid() && Wf(c, nullStation)
    requires line.fromName !in c.seen && line.toName in c.seen && line.toName != BlankStationName
    requires c.s.origin !in c.seen.Values
    ensures AddLeg(c, nullStation, line, repeats, parse).s.origin == c.seen[line.toName]
  {
    var e := Ends(c, nullStation, line.fromName, line.toName);
    assert c.s.nextStation !in c.s.onward;
    assert c.s.origin in c.s.onward;
    assert e.0.seen == c.seen[line.fromName := c.s.nextStation];
    assert c.s.origin !in e.0.seen.Values;
  }

  /** Once the survey is rooted at a station met, the origin never moves again. */
  lemma RootedOriginStays(c: Centreline, nullStation: StationId, line: LegLine, repeats: seq<Leg>, parse: NumberParser)
    requires Wf(c, nullStation) && c.s.origin in c.seen.Values
    ensures AddLeg(c, nullStation, line, repeats, parse).s.origin == c.s.origin
    ensures AddLeg(c, nullStation, line, repeats, parse).s.origin in AddLeg(c, nullStation, line, repeats, parse).seen.Values
  {
    var e := Ends(c, nullStation, line.fromName, line.toName);
    var n :| n in c.seen && c.seen[n] == c.s.origin;
    assert n in e.0.seen && e.0.seen[n] == c.s.origin;
  }

  lemma RegisterValid(c: Centreline, name: string)
    requires c.s.Valid()
    ensures Register(c, name).0.s.Valid()
  {
    if name !in c.seen {
      PocketTopoImporter.FoundedGrows(c.s, name, "", Right);
    }
  }

  lemma EndsValid(c: Centreline, nullStation: StationId, fromName: string, toName: string)
    requires c.s.Valid() && Wf(c, nullStation)
    ensures Ends(c, nullStation, fromName, toName).0.s.Valid()
  {
    RegisterValid(c, fromName);
    RegisterWf(c, fromName, nullStation);
    RegisterValid(Register(c, fromName).0, toName);
  }

  /** Every leg keeps the survey well formed: each station has its attributes and the counters stay ahead. */
  lemma AddLegKeepsValid(c: Centreline, nullStation: StationId, line: LegLine, repeats: seq<Leg>, parse: NumberParser)
    requires c.s.Valid() && Wf(c, nullStation)
    ensures AddLeg(c, nullStation, line, repeats, parse).s.Valid()
  {
    hide Provenance, Remark, Ends;
    var isSplay := line.toName == BlankStationName;
    var isBackward := IsBackwardLeg(line.fromName, line.toName, c.seen);
    EndsValid(c, nullStation, line.fromName, line.toName);
    var (c1, from, to) := Ends(c, nullStation, line.fromName, line.toName);
    var rooted := Rooted(c1, isSplay, isBackward, from, to);
    RootedValid(c1, isSplay, isBackward, from, to);
    var (leg, legFrom) := NewLeg(line, isBackward, isSplay, from, to, Provenance(line.comment, repeats, parse));
    var target := CommentTarget(isBackward, isSplay, from, to);
    CommentedValid(rooted, target, Remark(line.comment));
    var commented := Commented(rooted, target, Remark(line.comment));
    PocketTopoImporter.AttachedGrows(commented, legFrom, leg);
    ActivatedValid(Attached(commented, legFrom, leg), legFrom);
  }

  lemma RootedValid(c: Centreline, isSplay: bool, isBackward: bool, from: StationId, to: StationId)
    requires c.s.Valid() && from in c.s.onward && to in c.s.onward
    ensures Rooted(c, isSplay, isBackward, from, to).Valid()
  {
  }

  lemma CommentedValid(s: SurveyState, target: Option<StationId>, remark: string)
    requires s.Valid() && (target.Some? ==> target.value in s.onward)
    ensures Commented(s, target, remark).Valid()
  {
  }

  lemma ActivatedValid(s: SurveyState, st: StationId)
    requires s.Valid() && st in s.onward
    ensures Activated(s, st).Valid()
  {
  }

  // ---- the whole centreline -------------------------------------------------

  lemma StepKeepsValid(c: Centreline, lines: seq<string>, i: nat, nullStation: StationId, parse: NumberParser)
    requires c.s.Valid() && Wf(c, nullStation) && i < |lines|
    ensures Step(c, lines, i, nullStation, parse).Ok? ==> Step(c, lines, i, nullStation, parse).value.s.Valid()
  {
    match ReadLine(lines[i], parse)
    case Skipped =>
    case Broken =>
    case Data(line) =>
      AddLegKeepsValid(c, nullStation, line, CommentedRepeats(lines[i + 1..], line.fromName, line.toName, parse), parse);
  }

  /** Importing a centreline, in full or up to a refused line, leaves a well-formed survey. */
  lemma {:induction false} RunKeepsValid(c: Centreline, lines: seq<string>, i: nat, nullStation: StationId, parse: NumberParser)
    requires c.s.Valid() && Wf(c, nullStation)
    ensures Run(c, lines, i, nullStation, parse).0.s.Valid()
    decreases |lines| - i
  {
    if i < |lines| {
      StepKeepsValid(c, lines, i, nullStation, parse);
      var step := Step(c, lines, i, nullStation, parse);
      if step.Ok? {
        RunKeepsValid(step.value, lines, i + 1, nullStation, parse);
      }
    }
  }

  /** The import fails at the first broken line, naming that line, and at no other. */
  lemma {:induction false} RunFailsAtFirstBroken(c: Centreline, lines: seq<string>, i: nat, j: nat, nullStation: StationId, parse: NumberParser)
    requires Wf(c, nullStation) && i <= j < |lines|
    requires forall k :: i <= k < j ==> !ReadLine(lines[k], parse).Broken?
    requires ReadLine(lines[j], parse).Broken?
    ensures Run(c, lines, i, nullStation, parse).1 == Some(LineErrorPrefix + lines[j])
    decreases j - i
  {
    hide ReadLine;
    if i < j {
      var step := Step(c, lines, i, nullStation, parse);
      assert step.Ok?;
      RunFailsAtFirstBroken(step.value, lines, i + 1, j, nullStation, parse);
    }
  }

  /** Without a broken line the import runs to the end without an error. */
  lemma {:induction false} RunCompletes(c: Centreline, lines: seq<string>, i: nat, nullStation: StationId, parse: NumberParser)
    requires Wf(c, nullStation)
    requires forall k :: i <= k < |lines| ==> !ReadLine(lines[k], parse).Broken?
    ensures Run(c, lines, i, nullStation, parse).1 == None
    decreases |lines| - i
  {
    hide ReadLine;
    if i < |lines| {
      var step := Step(c, lines, i, nullStation, parse);
      assert step.Ok?;
      RunCompletes(step.value, lines, i + 1, nullStation, parse);
    }
  }

  /** Lines passed over change nothing. */
  lemma SkippedLineChangesNothing(c: Centreline, lines: seq<string>, i: nat, nullStation: StationId, parse: NumberParser)
    requires Wf(c, nullStation) && i < |lines| && IsPassedOver(lines[i])
    ensures Run(c, lines, i, nullStation, parse) == Run(c, lines, i + 1, nullStation, parse)
  {
  }

  // ---- the importer on the survey object ------------------------------------

  /** nameToStation.get(name), or a new Station(name) put in the map. */
  method RegisterStation(survey: Survey, seen: map<string, StationId>, name: string)
    returns (seen': map<string, StationId>, st: StationId)
    modifies survey`names, survey`comments, survey`directions, survey`onward, survey`nextStation
    ensures (Centreline(survey.State(), seen'), st) == Register(Centreline(old(survey.State()), seen), name)
  {
    if name in seen {
      return seen, seen[name];
    }
    st := survey.NewStation(name, Right);
    seen' := seen[name := st];
  }

  /** The two ends of the leg, looked up or created, on the survey object. */
  method RegisterEnds(survey: Survey, seen: map<string, StationId>, nullStation: StationId, fromName: string, toName: string)
    returns (seen': map<string, StationId>, from: StationId, to: StationId)
    requires Wf(Centreline(survey.State(), seen), nullStation)
    modifies survey`names, survey`comments, survey`directions, survey`onward, survey`nextStation
    ensures (Centreline(survey.State(), seen'), from, to) == Ends(Centreline(old(survey.State()), seen), nullStation, fromName, toName)
  {
    seen', from := RegisterStation(survey, seen, fromName);
    to := nullStation;
    if toName != BlankStationName {
      seen', to := RegisterStation(survey, seen', toName);
    }
  }

  /** The leg, its station's comment and the station it hangs from, set on the survey object. */
  method PlaceLeg(survey: Survey, line: LegLine, isBackward: bool, isSplay: bool, from: StationId, to: StationId,
                  promoted: seq<Leg>, remark: string) returns (leg: Leg, legFrom: StationId)
    modifies survey`comments
    ensures (leg, legFrom) == NewLeg(line, isBackward, isSplay, from, to, promoted)
    ensures survey.State() == Commented(old(survey.State()), CommentTarget(isBackward, isSplay, from, to), remark)
  {
    if isBackward {
      legFrom := to;
      leg := Leg(0, line.distance, line.azimuth, line.inclination, Some(from), true, promoted, []);
      if remark != "" {
        survey.SetComment(from, remark);
      }
    } else {
      legFrom := from;
      if isSplay {
        leg := Splay(0, line.distance, line.azimuth, line.inclination);
      } else {
        leg := Leg(0, line.distance, line.azimuth, line.inclination, Some(to), false, promoted, []);
      }
      if remark != "" && !isSplay {
        survey.SetComment(to, remark);
      }
    }
  }

  /** survey.setOrigin for the first non-splay leg: a backward leg roots the survey at its "to" station. */
  method RootSurvey(survey: Survey, seen: map<string, StationId>, isSplay: bool, isBackward: bool, from: StationId, to: StationId)
    modifies survey`origin
    ensures survey.State() == Rooted(Centreline(old(survey.State()), seen), isSplay, isBackward, from, to)
  {
    if !isSplay && survey.origin !in seen.Values {
      survey.SetOrigin(if isBackward then to else from);
    }
  }

  /** AddLeg as the chain of its steps, given the outcome of the first two. */
  lemma AddLegSteps(c: Centreline, nullStation: StationId, line: LegLine, repeats: seq<Leg>, parse: NumberParser,
                    ends: (Centreline, StationId, StationId), placed: (Leg, StationId))
    requires Wf(c, nullStation)
    requires ends == Ends(c, nullStation, line.fromName, line.toName)
    requires placed == NewLeg(line, IsBackwardLeg(line.fromName, line.toName, c.seen), line.toName == BlankStationName,
                              ends.1, ends.2, Provenance(line.comment, repeats, parse))
    ensures placed.1 in ends.0.s.onward
    ensures var isSplay := line.toName == BlankStationName;
      var isBackward := IsBackwardLeg(line.fromName, line.toName, c.seen);
      var rooted := Rooted(ends.0, isSplay, isBackward, ends.1, ends.2);
      var commented := Commented(rooted, CommentTarget(isBackward, isSplay, ends.1, ends.2), Remark(line.comment));
      placed.1 in commented.onward &&
      AddLeg(c, nullStation, line, repeats, parse) ==
        Centreline(Activated(Attached(commented, placed.1, placed.0), placed.1), ends.0.seen)
  {
  }

  /** addLegToSurvey, on the survey object and the name-to-station map. */
  method AddLegToSurvey(survey: Survey, seen: map<string, StationId>, nullStation: StationId, line: LegLine,
                        repeats: seq<Leg>, parse: NumberParser) returns (seen': map<string, StationId>)
    requires Wf(Centreline(survey.State(), seen), nullStation)
    modifies survey`names, survey`comments, survey`directions, survey`onward, survey`nextStation
    modifies survey`origin, survey`record, survey`nextLeg, survey`active
    ensures Centreline(survey.State(), seen') == AddLeg(Centreline(old(survey.State()), seen), nullStation, line, repeats, parse)
  {
    hide AddLeg, Ends, NewLeg, Commented, Provenance, Rooted, Attached, Remark;
    ghost var c := Centreline(survey.State(), seen);
    var isSplay := line.toName == BlankStationName;
    var isBackward := IsBackwardLeg(line.fromName, line.toName, seen);
    var from, to;
    seen', from, to := RegisterEnds(survey, seen, nullStation, line.fromName, line.toName);
    ghost var ends := Centreline(survey.State(), seen');

    RootSurvey(survey, seen', isSplay, isBackward, from, to);
    var promoted := Provenance(line.comment, repeats, parse);
    var remark := Remark(line.comment);

    var leg, legFrom := PlaceLeg(survey, line, isBackward, isSplay, from, to, promoted, remark);
    AddLegSteps(c, nullStation, line, repeats, parse, (ends, from, to), (leg, legFrom));
    ghost var commented := survey.State();
    PocketTopoImporter.AttachLeg(survey, legFrom, leg);
    ghost var attached := survey.State();
    assert attached == Attached(commented, legFrom, leg);
    survey.SetActiveStation(legFrom);
    assert survey.State() == Activated(attached, legFrom);
  }

  /**
   * parseCentreline: the lines in order, each passed over, refused or added
   * as a leg; the first refused line ends the import with its error, the
   * legs before it staying in the survey.
   */
  method ParseCentreline(text: string, survey: Survey, nullStation: StationId, parse: NumberParser)
    returns (error: Option<string>)
    requires nullStation in survey.onward
    modifies survey`names, survey`comments, survey`directions, survey`onward, survey`nextStation
    modifies survey`origin, survey`record, survey`nextLeg, survey`active
    ensures (survey.State(), error) == Import(old(survey.State()), text, nullStation, parse)
  {
    hide AddLeg, ReadLine, CommentedRepeats, SplitChar;
    var seen: map<string, StationId> := map[];
    var lines := SplitChar(text, '\n');
    ghost var start := Centreline(survey.State(), seen);
    var i := 0;
    while i < |lines|
      invariant i <= |lines|
      invariant Wf(Centreline(survey.State(), seen), nullStation)
      invariant Run(start, lines, 0, nullStation, parse) == Run(Centreline(survey.State(), seen), lines, i, nullStation, parse)
    {
      match ReadLine(lines[i], parse) {
        case Skipped =>
        case Broken =>
          return Some(LineErrorPrefix + lines[i]);
        case Data(line) =>
          var repeats := ParseCommentedRepeats(lines, i, line.fromName, line.toName, parse);
          seen := AddLegToSurvey(survey, seen, nullStation, line, repeats, parse);
      }
      i := i + 1;
    }
    return None;
  }
}
