/**
 * Live entry of shots into a survey. Each shot from the instrument either
 * joins the provenance of the leg that created the active station, or is
 * appended as a splay off the active station; appending may then promote
 * the newest splays (N repeats, or a fore/back pair) into a connected leg
 * to a new station, which becomes active. The tree edits (edit, rename,
 * move, delete, downgrade, reverse, re-direct a subtree) live here too.
 *
 * Each operation is given twice: as a transition function on the survey
 * snapshot, about which the lemmas speak, and as a method on the mutable
 * survey that is proved to perform exactly that transition.
 */
module SurveyUpdater {
  import opened Wrappers
  import opened Legs
  import opened Averaging
  import opened SurveyModel

  datatype InputMode = Forward | Backward | Combo | CalibrationCheck

  /** The survey after a shot, and whether a new station was created. */
  datatype Outcome = Outcome(state: SurveyState, created: bool)

  /** StationNamer.generateNextStationName: the name the next new station gets, decided from the survey. */
  type Namer = SurveyState -> string

  /** The newest element first. */
  function Backwards(xs: seq<Leg>): (r: seq<Leg>)
    ensures |r| == |xs| && forall k :: 0 <= k < |xs| ==> r[k] == xs[|xs| - 1 - k]
  {
    if xs == [] then [] else [xs[|xs| - 1]] + Backwards(xs[..|xs| - 1])
  }

  // ---- appending a shot -----------------------------------------------------

  /** The shot appended to the active station's legs and to the record; the survey is no longer saved. */
  function AddedToActive(s: SurveyState, leg: Leg): (r: SurveyState)
    requires s.Valid() && leg.id < s.nextLeg
    ensures r.Valid()
  {
    s.WithLegs(s.active, s.onward[s.active] + [leg], s.record + [leg], s.nextLeg)
  }

  // ---- promotion ------------------------------------------------------------

  /** createNewStationIfTripleShot's test: the newest n record legs are n legs of the active station, all about the same. */
  predicate TripleShot(s: SurveyState, n: nat, tol: Tolerances)
    requires n >= 1
  {
    |s.ActiveLegs()| >= n && |s.LastLegs(n)| >= n &&
    AllIn(s.LastLegs(n), s.ActiveLegs()) && AboutTheSame(s.LastLegs(n), tol)
  }

  /** The connected leg made of the repeated shots: averaged, carrying them as provenance, reversed in backsight mode. */
  function PromotedLeg(shots: seq<Leg>, destination: StationId, backsightMode: bool): Leg
    requires |shots| > 0
  {
    var up := UpgradeSplayToConnectedLeg(AveragedLeg(shots), destination, shots, []);
    if backsightMode then Reverse(up) else up
  }

  /**
   * A new station is created with the active station's direction; the
   * newest n record entries are undone (each taken off the record and off
   * the active station, newest first) and leg, as a new object, is put in
   * their place off the active station; the new station becomes active.
   */
  function PromoteLast(s: SurveyState, n: nat, name: string, leg: Leg): (r: SurveyState)
    requires s.Valid() && n <= |s.record|
    ensures r.Valid()
  {
    var t := s.WithStation(name, s.directions[s.active]);
    var placed := leg.(id := t.nextLeg);
    var kept := RemoveEach(s.onward[s.active], Backwards(s.record[|s.record| - n..]));
    assert IdsBelow(kept + [placed], t.nextLeg + 1);
    assert IdsBelow(s.record[..|s.record| - n] + [placed], t.nextLeg + 1);
    t.(onward := t.onward[s.active := kept + [placed]],
       record := s.record[..|s.record| - n] + [placed],
       active := s.nextStation,
       nextLeg := t.nextLeg + 1)
  }

  /** createNewStationIfTripleShot. */
  function TripleShotStep(s: SurveyState, backsightMode: bool, n: nat, tol: Tolerances, namer: Namer): (r: Outcome)
    requires s.Valid() && n >= 1
    ensures r.state.Valid()
  {
    if TripleShot(s, n, tol) then
      Outcome(PromoteLast(s, n, namer(s), PromotedLeg(s.LastLegs(n), s.nextStation, backsightMode)), true)
    else Outcome(s, false)
  }

  /** createNewStationIfBacksight's test: the two newest record legs are legs of the active station and agree as fore and back sight. */
  predicate BacksightPair(s: SurveyState, tol: Tolerances)
  {
    |s.ActiveLegs()| >= 2 && |s.LastLegs(2)| >= 2 && AllIn(s.LastLegs(2), s.ActiveLegs()) &&
    AboutTheSame([s.LastLegs(2)[0], AsBacksight(s.LastLegs(2)[1])], tol)
  }

  /** The connected leg averaged from a fore and back sight pair. */
  function PairLeg(fore: Leg, back: Leg, destination: StationId): Leg
  {
    ToFullLeg(AveragedLeg([fore, AsBacksight(back)]), destination)
  }

  /** createNewStationIfBacksight. */
  function BacksightStep(s: SurveyState, tol: Tolerances, namer: Namer): (r: Outcome)
    requires s.Valid()
    ensures r.state.Valid()
  {
    if BacksightPair(s, tol) then
      Outcome(PromoteLast(s, 2, namer(s), PairLeg(s.LastLegs(2)[0], s.LastLegs(2)[1], s.nextStation)), true)
    else Outcome(s, false)
  }

  // ---- incorporation into the referring leg ----------------------------------

  datatype Incorporation = NoMatch | SameDirection(ref: Leg) | OppositeDirection(ref: Leg)

  /** tryIncorporateIntoExistingLeg's decision about a shot, made before the shot is added. */
  function IncorporationOf(s: SurveyState, shot: Leg, mode: InputMode, tol: Tolerances): (r: Incorporation)
    ensures r != NoMatch ==> mode != CalibrationCheck && s.ReferringLeg(s.active).Some?
    ensures r != NoMatch ==> r.ref == s.ReferringLeg(s.active).value.1 && r.ref.WasPromoted()
  {
    if mode == CalibrationCheck then NoMatch
    else match s.ReferringLeg(s.active)
      case None => NoMatch
      case Some((_, ref)) =>
        if !ref.WasPromoted() || |ref.promotedFrom| == 0 then NoMatch
        else
          var matchesOriginal := AboutTheSame([ref.promotedFrom[0], shot], tol);
          var matchesBacksight := AboutTheSame([AsBacksight(ref.promotedFrom[0]), shot], tol);
          if ref.HasBacksightShots() then (if matchesBacksight then OppositeDirection(ref) else NoMatch)
          else if matchesOriginal then SameDirection(ref)
          else if matchesBacksight then OppositeDirection(ref)
          else NoMatch
  }

  /** incorporateIntoReferringLeg's new leg: every original shot and the new one, averaged again. */
  function IncorporatedLeg(ref: Leg, shot: Leg, destination: StationId, mode: InputMode): Leg
  {
    var all := ref.promotedFrom + [shot];
    var up := UpgradeSplayToConnectedLeg(AveragedLeg(all), destination, all, ref.backsightPromotedFrom);
    if mode == Backward then Reverse(up) else up
  }

  /** addBacksightToReferringLeg's new leg: the same measurements, one more backsight shot. */
  function BacksightAddedLeg(ref: Leg, shot: Leg, destination: StationId, mode: InputMode): Leg
  {
    var up := UpgradeSplayToConnectedLeg(ToSplay(ref), destination, ref.promotedFrom, ref.backsightPromotedFrom + [shot]);
    if mode == Backward then Reverse(up) else up
  }

  /** The old leg taken off its originating station and the record; the new one, as a new object, appended to both. */
  function Replaced(s: SurveyState, previous: Leg, updated: Leg): (r: SurveyState)
    requires s.Valid() && s.OriginatingStation(previous).Some?
    ensures r.Valid()
  {
    var o := s.OriginatingStation(previous).value;
    var placed := updated.(id := s.nextLeg);
    var legs := RemoveFirst(s.onward[o], previous) + [placed];
    var record := RemoveFirst(s.record, previous) + [placed];
    assert IdsBelow(legs, s.nextLeg + 1);
    assert IdsBelow(record, s.nextLeg + 1);
    s.WithLegs(o, legs, record, s.nextLeg + 1)
  }

  // ---- update -----------------------------------------------------------------

  /** incorporateIntoReferringLeg or addBacksightToReferringLeg, as the decision says: the referring leg is replaced by the grown one. */
  function Incorporated(s: SurveyState, leg: Leg, inc: Incorporation, mode: InputMode): (r: SurveyState)
    requires s.Valid() && inc != NoMatch && s.ReferringLeg(s.active).Some? && inc.ref == s.ReferringLeg(s.active).value.1
    ensures r.Valid()
  {
    ReferringLegOriginates(s, s.active);
    match inc
    case SameDirection(ref) => Replaced(s, ref, IncorporatedLeg(ref, leg, s.active, mode))
    case OppositeDirection(ref) => Replaced(s, ref, BacksightAddedLeg(ref, leg, s.active, mode))
  }

  /** update(survey, leg, inputMode); the shot becomes a leg object of the survey with a new identity. */
  function UpdateStep(s: SurveyState, shot: Leg, mode: InputMode, n: nat, tol: Tolerances, namer: Namer): (r: Outcome)
    requires s.Valid() && n >= 1
    ensures r.state.Valid()
  {
    var leg := shot.(id := s.nextLeg);
    var s1 := Reserved(s);
    var inc := IncorporationOf(s1, leg, mode, tol);
    if inc == NoMatch then PromotionStep(AddedToActive(s1, leg), mode, n, tol, namer)
    else Outcome(Incorporated(s1, leg, inc, mode), false)
  }

  /** The promotion update attempts once a shot has been appended; COMBO tries a fore and back pair first. */
  function PromotionStep(s: SurveyState, mode: InputMode, n: nat, tol: Tolerances, namer: Namer): (r: Outcome)
    requires s.Valid() && n >= 1
    ensures r.state.Valid()
  {
    match mode
    case Forward => TripleShotStep(s, false, n, tol, namer)
    case Backward => TripleShotStep(s, true, n, tol, namer)
    case Combo =>
      var b := BacksightStep(s, tol, namer);
      if b.created then b else TripleShotStep(s, false, n, tol, namer)
    case CalibrationCheck => Outcome(s, false)
  }

  /** update(survey, legs, inputMode): once one shot creates a station, the shots after it are not looked at. */
  function UpdateAllStep(s: SurveyState, shots: seq<Leg>, mode: InputMode, n: nat, tol: Tolerances, namer: Namer): (r: Outcome)
    requires s.Valid() && n >= 1
    ensures r.state.Valid()
    decreases |shots|
  {
    if shots == [] then Outcome(s, false)
    else
      var o := UpdateStep(s, shots[0], mode, n, tol, namer);
      if o.created then o else UpdateAllStep(o.state, shots[1..], mode, n, tol, namer)
  }

  // ---- tree edits -------------------------------------------------------------

  /** editLeg: the first station in pre-order holding the leg swaps it for the edited one (as a new object) at the end of its legs; the record keeps its order. */
  function EditStep(s: SurveyState, toEdit: Leg, edited: Leg): (r: SurveyState)
    requires s.Valid()
    ensures r.Valid()
  {
    match s.OriginatingStation(toEdit)
    case None => s.(saved := false)
    case Some(o) =>
      var placed := edited.(id := s.nextLeg);
      var legs := RemoveFirst(s.onward[o], toEdit) + [placed];
      var record := ReplaceFirst(s.record, toEdit, placed);
      IdsBelowOf(legs, s.onward[o], placed, s.nextLeg + 1);
      IdsBelowOf(record, s.record, placed, s.nextLeg + 1);
      s.WithLegs(o, legs, record, s.nextLeg + 1)
  }

  const NotUniqueError: string := "station name not unique"

  /** renameStation: refused when any station of the survey, the renamed one included, already has the name. */
  function RenameStep(s: SurveyState, station: StationId, name: string): (r: Result<SurveyState>)
    requires s.Valid() && station in s.onward
    ensures r.Ok? ==> r.value.Valid()
  {
    if s.StationByName(name).Some? then Err(NotUniqueError)
    else Ok(s.(names := s.names[station := name], saved := false))
  }

  /** moveLeg: off its originating station, appended to the new one; the record is untouched. */
  function MoveStep(s: SurveyState, leg: Leg, newSource: StationId): (r: SurveyState)
    requires s.Valid() && s.OriginatingStation(leg).Some? && newSource in s.onward
    ensures r.Valid()
  {
    var o := s.OriginatingStation(leg).value;
    var rest := RemoveFirst(s.onward[o], leg);
    IdsBelowOf(rest, s.onward[o], leg, s.nextLeg + 1);
    var t := s.WithLegs(o, rest, s.record, s.nextLeg);
    var moved := t.onward[newSource] + [leg];
    IdsBelowOf(moved, t.onward[newSource], leg, s.nextLeg + 1);
    assert IdsBelow(moved, s.nextLeg) by {
      var k :| 0 <= k < |s.onward[o]| && s.onward[o][k] == leg;
    }
    t.WithLegs(newSource, moved, s.record, s.nextLeg)
  }

  /** deleteLeg: the legs of the destination's subtree and then the leg itself leave the record; the leg leaves its station. */
  function DeleteLegStep(s: SurveyState, from: StationId, leg: Leg): (r: SurveyState)
    requires s.Valid() && from in s.onward
    ensures r.Valid()
  {
    var pruned := if leg.destination.Some? then RemoveEach(s.record, s.SubtreeLegs(leg.destination.value)) else s.record;
    s.(record := RemoveFirst(pruned, leg), onward := s.onward[from := RemoveFirst(s.onward[from], leg)], saved := false)
  }

  /** deleteStation: the origin stays; any other station goes with the leg that leads to it. */
  function DeleteStationStep(s: SurveyState, station: StationId): (r: SurveyState)
    requires s.Valid() && (station != s.origin ==> s.ReferringLeg(station).Some?)
    ensures r.Valid()
  {
    if station == s.origin then s
    else
      var ref := s.ReferringLeg(station).value.1;
      ReferringLegOriginates(s, station);
      DeleteLegStep(s, s.OriginatingStation(ref).value, ref)
  }

  const HasOnwardLegsError: string := "Cannot downgrade leg to splay: destination station has onward legs"

  /** downgradeLeg: a splay is left alone; a leg whose destination has onward legs is refused; otherwise the leg becomes a splay. */
  function DowngradeStep(s: SurveyState, leg: Leg): (r: Result<SurveyState>)
    requires s.Valid() && (leg.destination.Some? ==> leg.destination.value in s.onward)
    ensures r.Ok? ==> r.value.Valid()
  {
    if leg.destination.None? then Ok(s)
    else if s.onward[leg.destination.value] != [] then Err(HasOnwardLegsError)
    else Ok(EditStep(s, leg, ToSplay(leg)))
  }

  /** reverseLeg: the leg leading to the station is read from the far end, swapped in as editLeg would. */
  function ReverseStep(s: SurveyState, station: StationId): (r: SurveyState)
    requires s.Valid()
    ensures r.Valid()
  {
    match s.ReferringLeg(station)
    case None => s.(saved := false)
    case Some((o, leg)) =>
      var placed := Reverse(leg).(id := s.nextLeg);
      var legs := RemoveFirst(s.onward[o], leg) + [placed];
      var record := ReplaceFirst(s.record, leg, placed);
      IdsBelowOf(legs, s.onward[o], placed, s.nextLeg + 1);
      IdsBelowOf(record, s.record, placed, s.nextLeg + 1);
      s.WithLegs(o, legs, record, s.nextLeg + 1)
  }

  /** setDirectionOfSubtree: the station and every station behind it take the direction. */
  function DirectionStep(s: SurveyState, station: StationId, direction: Direction): (r: SurveyState)
    requires s.Valid()
    ensures r.Valid()
  {
    var sub := s.Subtree(station);
    s.(directions := map k | k in s.directions :: if k in sub then direction else s.directions[k])
  }

  /** upgradeSplay: the splay becomes a connected leg to a new station (reversed in BACKWARD mode), which becomes active. */
  function UpgradeStep(s: SurveyState, splay: Leg, mode: InputMode, namer: Namer): (r: SurveyState)
    requires s.Valid()
    ensures r.Valid()
  {
    var t := s.WithStation(namer(s), Right);
    var full := ToFullLeg(splay, s.nextStation);
    var newLeg := if mode == Backward then Reverse(full) else full;
    EditStep(t, splay, newLeg).(active := s.nextStation)
  }

  /** addLegFromStation: appended to the station and the record; a connected leg moves the active station to its destination. */
  function AddFromStep(s: SurveyState, from: StationId, leg: Leg): (r: SurveyState)
    requires s.Valid() && from in s.onward && (leg.destination.Some? ==> leg.destination.value in s.onward)
    ensures r.Valid()
  {
    var placed := leg.(id := s.nextLeg);
    assert IdsBelow(s.onward[from] + [placed], s.nextLeg + 1);
    var t := s.WithLegs(from, s.onward[from] + [placed], s.record + [placed], s.nextLeg + 1);
    t.(active := if leg.destination.Some? then leg.destination.value else s.active)
  }

  /** updateWithNewStation: a splay first gets a new station as its destination. */
  function AddWithNewStationStep(s: SurveyState, leg: Leg, namer: Namer): (r: SurveyState)
    requires s.Valid() && (leg.destination.Some? ==> leg.destination.value in s.onward)
    ensures r.Valid()
  {
    if leg.destination.Some? then AddFromStep(s, s.active, leg)
    else
      var t := s.WithStation(namer(s), Right);
      AddFromStep(t, s.active, ToFullLeg(leg, s.nextStation))
  }

  // ---- properties -------------------------------------------------------------

  /** In calibration-check mode a shot is only appended, to the active station and to the record. */
  lemma CalibrationCheckOnlyAppends(s: SurveyState, shot: Leg, n: nat, tol: Tolerances, namer: Namer)
    requires s.Valid() && n >= 1
    ensures var r := UpdateStep(s, shot, CalibrationCheck, n, tol, namer);
      var leg := shot.(id := s.nextLeg);
      !r.created && !r.state.saved && r.state.active == s.active && r.state.nextStation == s.nextStation &&
      r.state.onward == s.onward[s.active := s.onward[s.active] + [leg]] &&
      r.state.record == s.record + [leg]
  {
  }

  /** A shot that is not incorporated ends up last among the active station's legs and last in the record, unless it completes a promotion. */
  lemma UnmatchedShotAppended(s: SurveyState, shot: Leg, mode: InputMode, n: nat, tol: Tolerances, namer: Namer)
    requires s.Valid() && n >= 1
    requires IncorporationOf(Reserved(s), shot.(id := s.nextLeg), mode, tol) == NoMatch
    ensures var r := UpdateStep(s, shot, mode, n, tol, namer);
      var leg := shot.(id := s.nextLeg);
      !r.created ==> r.state == AddedToActive(Reserved(s), leg)
  {
    var s2 := AddedToActive(Reserved(s), shot.(id := s.nextLeg));
    assert UpdateStep(s, shot, mode, n, tol, namer) == PromotionStep(s2, mode, n, tol, namer);
    PromotionOnlyWhenCreated(s2, mode, n, tol, namer);
  }

  /** Without a promotion the appended survey is left as it is. */
  lemma PromotionOnlyWhenCreated(s: SurveyState, mode: InputMode, n: nat, tol: Tolerances, namer: Namer)
    requires s.Valid() && n >= 1
    ensures var r := PromotionStep(s, mode, n, tol, namer);
      !r.created ==> r.state == s
  {
    if mode == Combo {
      var b := BacksightStep(s, tol, namer);
      assert !b.created ==> b.state == s;
    }
  }

  /** The shot appended: last among the active station's legs and last in the record, the survey no longer saved. */
  lemma AddedToActiveAppends(s: SurveyState, leg: Leg)
    requires s.Valid() && leg.id < s.nextLeg
    ensures var r := AddedToActive(s, leg);
      r.onward == s.onward[s.active := s.onward[s.active] + [leg]] && r.record == s.record + [leg] &&
      !r.saved && r.active == s.active && r.nextStation == s.nextStation && r.LastLegs(1) == [leg]
  {
  }

  /** PromoteLast creates one fresh, leg-less station with the active station's direction, and makes it active. */
  lemma {:induction false} PromotionCreatesOneStation(s: SurveyState, n: nat, name: string, leg: Leg)
    requires s.Valid() && n <= |s.record|
    ensures var r := PromoteLast(s, n, name, leg);
      s.nextStation !in s.onward && r.active == s.nextStation && r.nextStation == s.nextStation + 1 &&
      r.onward.Keys == s.onward.Keys + {s.nextStation} && r.onward[r.active] == [] &&
      r.names[r.active] == name && r.directions[r.active] == s.directions[s.active] &&
      r.origin == s.origin
  {
    var t := s.WithStation(name, s.directions[s.active]);
    assert s.active != s.nextStation;
  }

  /** PromoteLast puts the leg, as a new object, in place of the newest n record entries and after what is left of the active station's legs. */
  lemma PromotionReplacesShots(s: SurveyState, n: nat, name: string, leg: Leg)
    requires s.Valid() && n <= |s.record|
    ensures var r := PromoteLast(s, n, name, leg);
      var placed := leg.(id := s.nextLeg);
      r.record == s.record[..|s.record| - n] + [placed] &&
      r.onward[s.active] == RemoveEach(s.onward[s.active], Backwards(s.record[|s.record| - n..])) + [placed]
  {
    var t := s.WithStation(name, s.directions[s.active]);
    assert s.active != s.nextStation;
  }

  /** t is s with one fresh, leg-less station added and made active, facing the way the active station faced. */
  ghost predicate StationAdded(s: SurveyState, t: SurveyState)
    requires s.Valid() && t.Valid()
  {
    t.active == s.nextStation && s.nextStation !in s.onward &&
    t.nextStation == s.nextStation + 1 && t.onward.Keys == s.onward.Keys + {s.nextStation} &&
    t.directions[t.active] == s.directions[s.active] && t.onward[t.active] == []
  }

  lemma TripleShotStepCreates(s: SurveyState, backsightMode: bool, n: nat, tol: Tolerances, namer: Namer)
    requires s.Valid() && n >= 1
    ensures var r := TripleShotStep(s, backsightMode, n, tol, namer);
      (r.created ==> StationAdded(s, r.state)) && (!r.created ==> r.state == s)
  {
    if TripleShot(s, n, tol) {
      PromotionCreatesOneStation(s, n, namer(s), PromotedLeg(s.LastLegs(n), s.nextStation, backsightMode));
    }
  }

  lemma BacksightStepCreates(s: SurveyState, tol: Tolerances, namer: Namer)
    requires s.Valid()
    ensures var r := BacksightStep(s, tol, namer);
      (r.created ==> StationAdded(s, r.state)) && (!r.created ==> r.state == s)
  {
    if BacksightPair(s, tol) {
      PromotionCreatesOneStation(s, 2, namer(s), PairLeg(s.LastLegs(2)[0], s.LastLegs(2)[1], s.nextStation));
    }
  }

  /** The promotion attempts either add one station and make it active, or change nothing. */
  lemma PromotionStepCreates(s: SurveyState, mode: InputMode, n: nat, tol: Tolerances, namer: Namer)
    requires s.Valid() && n >= 1
    ensures var r := PromotionStep(s, mode, n, tol, namer);
      (r.created ==> StationAdded(s, r.state)) && (!r.created ==> r.state == s)
  {
    match mode
    case Forward => TripleShotStepCreates(s, false, n, tol, namer);
    case Backward => TripleShotStepCreates(s, true, n, tol, namer);
    case Combo =>
      BacksightStepCreates(s, tol, namer);
      TripleShotStepCreates(s, false, n, tol, namer);
    case CalibrationCheck =>
  }

  /** update creates at most one station, and moves the active station only when it does. */
  lemma UpdateCreatesStation(s: SurveyState, shot: Leg, mode: InputMode, n: nat, tol: Tolerances, namer: Namer)
    requires s.Valid() && n >= 1
    ensures var r := UpdateStep(s, shot, mode, n, tol, namer);
      (r.created ==> StationAdded(s, r.state)) &&
      (!r.created ==> r.state.active == s.active && r.state.nextStation == s.nextStation && r.state.onward.Keys == s.onward.Keys)
  {
    if IncorporationOf(Reserved(s), shot.(id := s.nextLeg), mode, tol) == NoMatch {
      UnmatchedShotMayCreate(s, shot, mode, n, tol, namer);
    } else {
      IncorporationKeepsCounts(s, shot, mode, n, tol, namer);
    }
  }

  lemma UnmatchedShotMayCreate(s: SurveyState, shot: Leg, mode: InputMode, n: nat, tol: Tolerances, namer: Namer)
    requires s.Valid() && n >= 1
    requires IncorporationOf(Reserved(s), shot.(id := s.nextLeg), mode, tol) == NoMatch
    ensures var r := UpdateStep(s, shot, mode, n, tol, namer);
      (r.created ==> StationAdded(s, r.state)) &&
      (!r.created ==> r.state.active == s.active && r.state.nextStation == s.nextStation && r.state.onward.Keys == s.onward.Keys)
  {
    var leg := shot.(id := s.nextLeg);
    var s1 := Reserved(s);
    var s2 := AddedToActive(s1, leg);
    var r := UpdateStep(s, shot, mode, n, tol, namer);
    assert r == PromotionStep(s2, mode, n, tol, namer);
    PromotionStepCreates(s2, mode, n, tol, namer);
    assert s2.onward.Keys == s.onward.Keys && s2.active == s.active && s2.nextStation == s.nextStation && s2.directions == s.directions;
  }

  /** Incorporation replaces one leg: the stations, the active station and the originating station's leg count stay. */
  lemma IncorporatedKeepsCounts(s: SurveyState, leg: Leg, inc: Incorporation, mode: InputMode)
    requires s.Valid() && inc != NoMatch && s.ReferringLeg(s.active).Some? && inc.ref == s.ReferringLeg(s.active).value.1
    ensures s.OriginatingStation(inc.ref).Some?
    ensures var r := Incorporated(s, leg, inc, mode);
      var o := s.OriginatingStation(inc.ref).value;
      r.active == s.active && r.nextStation == s.nextStation && r.onward.Keys == s.onward.Keys &&
      |r.onward[o]| == |s.onward[o]| && (inc.ref in s.record ==> |r.record| == |s.record|)
  {
    ReferringLegOriginates(s, s.active);
    match inc
    case SameDirection(ref) => ReplacedKeepsCounts(s, ref, IncorporatedLeg(ref, leg, s.active, mode));
    case OppositeDirection(ref) => ReplacedKeepsCounts(s, ref, BacksightAddedLeg(ref, leg, s.active, mode));
  }

  /** Replacing a leg keeps the stations, the active station and the originating station's leg count. */
  lemma ReplacedKeepsCounts(s: SurveyState, previous: Leg, updated: Leg)
    requires s.Valid() && s.OriginatingStation(previous).Some?
    ensures var r := Replaced(s, previous, updated);
      var o := s.OriginatingStation(previous).value;
      r.active == s.active && r.nextStation == s.nextStation && r.onward.Keys == s.onward.Keys &&
      |r.onward[o]| == |s.onward[o]| && r.onward[o][|r.onward[o]| - 1] == updated.(id := s.nextLeg) &&
      (previous in s.record ==> |r.record| == |s.record|)
  {
  }

  /** The shots after the first one that creates a station are left out: a batch creates at most one station. */
  lemma {:induction false} UpdateAllCreatesAtMostOne(s: SurveyState, shots: seq<Leg>, mode: InputMode, n: nat, tol: Tolerances, namer: Namer)
    requires s.Valid() && n >= 1
    ensures var r := UpdateAllStep(s, shots, mode, n, tol, namer);
      r.state.nextStation == s.nextStation + (if r.created then 1 else 0) &&
      (!r.created ==> r.state.active == s.active)
    decreases |shots|
  {
    if shots != [] {
      UpdateCreatesStation(s, shots[0], mode, n, tol, namer);
      var o := UpdateStep(s, shots[0], mode, n, tol, namer);
      if !o.created {
        UpdateAllCreatesAtMostOne(o.state, shots[1..], mode, n, tol, namer);
      }
    }
  }

  /**
   * A triple shot becomes one leg: the n shots leave the record and the
   * active station, and the promoted leg, leading to the new station,
   * takes their place at the end of both; in forward mode its provenance
   * is the n shots in the order they were taken.
   */
  lemma {:induction false} TripleShotPromotes(s: SurveyState, backsightMode: bool, n: nat, tol: Tolerances, namer: Namer)
    requires s.Valid() && n >= 1 && TripleShot(s, n, tol)
    requires Distinct(s.record) && Distinct(s.onward[s.active])
    ensures var r := TripleShotStep(s, backsightMode, n, tol, namer);
      var last := s.LastLegs(n);
      var leg := r.state.record[|r.state.record| - 1];
      r.created && r.state.active == s.nextStation && r.state.names[s.nextStation] == namer(s) &&
      r.state.record == s.record[..|s.record| - n] + [leg] &&
      |r.state.onward[s.active]| == |s.onward[s.active]| - n + 1 &&
      r.state.onward[s.active][|r.state.onward[s.active]| - 1] == leg &&
      leg.destination == Some(s.nextStation) && leg.wasShotBackwards == backsightMode &&
      |leg.promotedFrom| == n && (!backsightMode ==> leg.promotedFrom == last)
  {
    var last := s.LastLegs(n);
    var promoted := PromotedLeg(last, s.nextStation, backsightMode);
    var r := PromoteLast(s, n, namer(s), promoted);
    assert TripleShotStep(s, backsightMode, n, tol, namer) == Outcome(r, true);
    UndoneShotsLeave(s, n);
    PromotionCreatesOneStation(s, n, namer(s), promoted);
    PromotionReplacesShots(s, n, namer(s), promoted);
    PromotedLegShape(last, s.nextStation, backsightMode);
  }

  /** The newest n record entries, all legs of the active station, leave it n legs shorter when nothing is recorded twice. */
  lemma UndoneShotsLeave(s: SurveyState, n: nat)
    requires s.Valid() && n <= |s.record| && AllIn(s.LastLegs(n), s.onward[s.active])
    requires Distinct(s.record) && Distinct(s.onward[s.active])
    ensures |RemoveEach(s.onward[s.active], Backwards(s.record[|s.record| - n..]))| == |s.onward[s.active]| - n
  {
    var last := s.LastLegs(n);
    var popped := Backwards(s.record[|s.record| - n..]);
    assert Distinct(popped) by {
      forall i, j | 0 <= i < j < |popped| ensures popped[i] != popped[j] {
        assert popped[i] == s.record[|s.record| - 1 - i] && popped[j] == s.record[|s.record| - 1 - j];
      }
    }
    assert AllIn(popped, s.onward[s.active]) by {
      forall k | 0 <= k < |popped| ensures popped[k] in s.onward[s.active] {
        assert popped[k] == last[n - 1 - k];
      }
    }
    RemoveEachLength(s.onward[s.active], popped);
  }

  /** The promoted leg leads to the new station and carries the shots as its provenance, in order when not reversed. */
  lemma PromotedLegShape(shots: seq<Leg>, destination: StationId, backsightMode: bool)
    requires |shots| > 0
    ensures var leg := PromotedLeg(shots, destination, backsightMode);
      leg.destination == Some(destination) && leg.wasShotBackwards == backsightMode &&
      |leg.promotedFrom| == |shots| && leg.backsightPromotedFrom == [] &&
      (!backsightMode ==> leg.promotedFrom == shots)
  {
  }

  /** The promoted leg's distance and inclination lie between the smallest and largest of the shots'. */
  lemma PromotedLegWithinShots(shots: seq<Leg>, destination: StationId)
    requires |shots| > 0
    ensures var leg := PromotedLeg(shots, destination, false);
      Min(Distances(shots)) <= leg.distance <= Max(Distances(shots)) &&
      Min(Inclinations(shots)) <= leg.inclination <= Max(Inclinations(shots))
  {
    MeanWithinRange(Distances(shots));
    MeanWithinRange(Inclinations(shots));
  }

  /** A fore and back sight pair becomes one leg to the new station, averaged from the pair, without provenance. */
  lemma {:induction false} BacksightPairPromotes(s: SurveyState, tol: Tolerances, namer: Namer)
    requires s.Valid() && BacksightPair(s, tol)
    ensures var r := BacksightStep(s, tol, namer);
      var leg := r.state.record[|r.state.record| - 1];
      var fore := s.record[|s.record| - 2];
      var back := s.record[|s.record| - 1];
      r.created && r.state.active == s.nextStation &&
      r.state.record == s.record[..|s.record| - 2] + [leg] &&
      leg.destination == Some(s.nextStation) && leg.promotedFrom == [] && leg.backsightPromotedFrom == [] &&
      leg.distance == (fore.distance + back.distance) / 2.0 &&
      leg.inclination == (fore.inclination - back.inclination) / 2.0
  {
    var last := s.LastLegs(2);
    assert last == [s.record[|s.record| - 2], s.record[|s.record| - 1]];
    var leg := PairLeg(last[0], last[1], s.nextStation);
    assert BacksightStep(s, tol, namer) == Outcome(PromoteLast(s, 2, namer(s), leg), true);
    PairLegShape(last[0], last[1], s.nextStation);
    PromotionCreatesOneStation(s, 2, namer(s), leg);
    PromotionReplacesShots(s, 2, namer(s), leg);
  }

  /** A fore and back sight pair averages to a leg whose length is their mean and whose slope is the mean of the fore slope and the reversed back slope. */
  lemma PairLegShape(fore: Leg, back: Leg, destination: StationId)
    ensures var leg := PairLeg(fore, back, destination);
      leg.destination == Some(destination) && leg.promotedFrom == [] && leg.backsightPromotedFrom == [] &&
      leg.distance == (fore.distance + back.distance) / 2.0 &&
      leg.inclination == (fore.inclination - back.inclination) / 2.0
  {
    var pair := [fore, AsBacksight(back)];
    assert Distances(pair) == [fore.distance, back.distance];
    assert Inclinations(pair) == [fore.inclination, -back.inclination];
    SumOfPair(fore.distance, back.distance);
    SumOfPair(fore.inclination, -back.inclination);
  }

  lemma SumOfPair(a: real, b: real)
    ensures Sum([a, b]) == a + b
  {
    var xs := [a, b];
    assert xs[..1] == [a];
    assert [a][..0] == [];
    assert Sum([a]) == Sum([]) + a;
    assert Sum(xs) == Sum(xs[..1]) + b;
  }

  /**
   * A shot incorporated into the referring leg replaces that leg by a new
   * one at the end of the same station's legs: no station is created, the
   * active station stays, and the station's leg count is unchanged, as is
   * the record's length when the referring leg was in the record.
   */
  lemma IncorporationKeepsCounts(s: SurveyState, shot: Leg, mode: InputMode, n: nat, tol: Tolerances, namer: Namer)
    requires s.Valid() && n >= 1
    requires IncorporationOf(Reserved(s), shot.(id := s.nextLeg), mode, tol) != NoMatch
    ensures var ref := IncorporationOf(Reserved(s), shot.(id := s.nextLeg), mode, tol).ref;
      s.ReferringLeg(s.active).Some? && s.ReferringLeg(s.active).value.1 == ref && s.OriginatingStation(ref).Some?
    ensures var r := UpdateStep(s, shot, mode, n, tol, namer);
      var ref := IncorporationOf(Reserved(s), shot.(id := s.nextLeg), mode, tol).ref;
      var o := Reserved(s).OriginatingStation(ref).value;
      o == s.OriginatingStation(ref).value &&
      !r.created && r.state.active == s.active && r.state.nextStation == s.nextStation &&
      |r.state.onward[o]| == |s.onward[o]| &&
      r.state.onward.Keys == s.onward.Keys &&
      (ref in s.record ==> |r.state.record| == |s.record|)
  {
    var leg := shot.(id := s.nextLeg);
    var s1 := Reserved(s);
    var inc := IncorporationOf(s1, leg, mode, tol);
    var r := UpdateStep(s, shot, mode, n, tol, namer);
    assert r == Outcome(Incorporated(s1, leg, inc, mode), false);
    SameTreeSameLookups(s, s1, s.active, inc.ref);
    IncorporatedKeepsCounts(s1, leg, inc, mode);
  }

  /**
   * The new leg made by incorporation: a shot in the original direction
   * joins promotedFrom and the leg is averaged again; a shot in the
   * opposite direction joins backsightPromotedFrom and the measurements
   * stay. Either way the leg still leads to the active station.
   */
  lemma IncorporatedLegs(ref: Leg, shot: Leg, destination: StationId)
    ensures var l := IncorporatedLeg(ref, shot, destination, Forward);
      l.promotedFrom == ref.promotedFrom + [shot] && l.backsightPromotedFrom == ref.backsightPromotedFrom &&
      l.destination == Some(destination) && l.distance == Mean(Distances(ref.promotedFrom + [shot]))
    ensures var l := BacksightAddedLeg(ref, shot, destination, Forward);
      l.promotedFrom == ref.promotedFrom && l.backsightPromotedFrom == ref.backsightPromotedFrom + [shot] &&
      l.destination == Some(destination) &&
      l.distance == ref.distance && l.azimuth == ref.azimuth && l.inclination == ref.inclination
    ensures |IncorporatedLeg(ref, shot, destination, Backward).promotedFrom| == |ref.promotedFrom| + 1
    ensures |BacksightAddedLeg(ref, shot, destination, Backward).backsightPromotedFrom| == |ref.backsightPromotedFrom| + 1
  {
  }

  /** Once the referring leg has backsight shots, a shot in its original direction is not incorporated unless it also matches the backsight direction. */
  lemma BacksightShotsLockDirection(s: SurveyState, shot: Leg, mode: InputMode, tol: Tolerances)
    requires s.ReferringLeg(s.active).Some?
    requires var ref := s.ReferringLeg(s.active).value.1;
      ref.HasBacksightShots() && |ref.promotedFrom| > 0 &&
      !AboutTheSame([AsBacksight(ref.promotedFrom[0]), shot], tol)
    ensures IncorporationOf(s, shot, mode, tol) == NoMatch
  {
  }

  /** renameStation refuses a name already in use, the station's own name included. */
  lemma RenameToOwnNameRefused(s: SurveyState, station: StationId)
    requires s.Valid() && station in s.onward && station in s.Stations()
    ensures RenameStep(s, station, s.names[station]).Err?
  {
    var k :| 0 <= k < |s.Stations()| && s.Stations()[k] == station;
  }

  /** After a rename, looking the new name up finds the renamed station. */
  lemma RenameThenFind(s: SurveyState, station: StationId, name: string)
    requires s.Valid() && station in s.onward && station in s.Stations()
    requires RenameStep(s, station, name).Ok?
    ensures RenameStep(s, station, name).value.StationByName(name) == Some(station)
    ensures RenameStep(s, station, name).value.Stations() == s.Stations()
  {
    var r := RenameStep(s, station, name).value;
    assert r.Stations() == s.Stations();
    r.FirstNamedUnique(s.Stations(), station, name);
  }

  /** deleteLeg: with no leg recorded twice, neither the leg nor any leg behind it is left in the record, and every other recorded leg stays. */
  lemma DeleteLegRemovesSubtree(s: SurveyState, from: StationId, leg: Leg)
    requires s.Valid() && from in s.onward && Distinct(s.record) && Distinct(s.onward[from])
    requires leg.destination.Some?
    ensures var r := DeleteLegStep(s, from, leg);
      var gone := s.SubtreeLegs(leg.destination.value) + [leg];
      (forall x :: x in gone ==> x !in r.record) &&
      (forall x :: x in s.record && x !in gone ==> x in r.record) &&
      leg !in r.onward[from] && !r.saved
  {
    var sub := s.SubtreeLegs(leg.destination.value);
    RemoveEachDistinct(s.record, sub);
    RemoveFirstDistinct(RemoveEach(s.record, sub), leg);
    RemoveFirstDistinct(s.onward[from], leg);
  }

  /** deleteStation leaves the origin, and the whole survey, as it is. */
  lemma DeleteOriginKeepsSurvey(s: SurveyState)
    requires s.Valid()
    ensures DeleteStationStep(s, s.origin) == s
  {
  }

  /** downgradeLeg leaves a splay as it is and refuses a leg whose destination has legs of its own. */
  lemma DowngradeGuards(s: SurveyState, leg: Leg)
    requires s.Valid() && (leg.destination.Some? ==> leg.destination.value in s.onward)
    ensures leg.destination.None? ==> DowngradeStep(s, leg) == Ok(s)
    ensures leg.destination.Some? && s.onward[leg.destination.value] != [] ==> DowngradeStep(s, leg).Err?
    ensures leg.destination.Some? && s.onward[leg.destination.value] == [] && s.OriginatingStation(leg).Some? ==>
      var o := s.OriginatingStation(leg).value;
      var r := DowngradeStep(s, leg).value;
      DowngradeStep(s, leg).Ok? && |r.onward[o]| == |s.onward[o]| &&
      r.onward[o][|r.onward[o]| - 1] == ToSplay(leg).(id := s.nextLeg) && |r.record| == |s.record| && !r.saved
  {
  }

  /** setDirectionOfSubtree: exactly the stations of the subtree take the direction, and doing it twice changes nothing more. */
  lemma DirectionCoversSubtree(s: SurveyState, station: StationId, direction: Direction)
    requires s.Valid()
    ensures var r := DirectionStep(s, station, direction);
      (forall k :: k in s.Subtree(station) ==> r.directions[k] == direction) &&
      (forall k :: k in s.directions && k !in s.Subtree(station) ==> r.directions[k] == s.directions[k]) &&
      r.Subtree(station) == s.Subtree(station) &&
      DirectionStep(r, station, direction) == r
  {
    var r := DirectionStep(s, station, direction);
    assert r.Subtree(station) == s.Subtree(station);
  }

  /** reverseLeg: the leg into the station is swapped for its reading from the far end, in the same place in the record. */
  lemma ReverseLegSwaps(s: SurveyState, station: StationId)
    requires s.Valid() && s.ReferringLeg(station).Some?
    ensures var (o, leg) := s.ReferringLeg(station).value;
      var r := ReverseStep(s, station);
      var rev := r.onward[o][|r.onward[o]| - 1];
      |r.onward[o]| == |s.onward[o]| && |r.record| == |s.record| &&
      rev == Reverse(leg).(id := s.nextLeg) && rev.destination == Some(station) &&
      rev.wasShotBackwards != leg.wasShotBackwards && (leg in s.record ==> rev in r.record)
  {
  }

  /** moveLeg: the leg is last among the new station's legs and the record is untouched. */
  lemma MoveLegAppends(s: SurveyState, leg: Leg, newSource: StationId)
    requires s.Valid() && s.OriginatingStation(leg).Some? && newSource in s.onward
    ensures var r := MoveStep(s, leg, newSource);
      var o := s.OriginatingStation(leg).value;
      r.onward[newSource][|r.onward[newSource]| - 1] == leg && r.record == s.record && !r.saved &&
      (o != newSource ==> |r.onward[o]| == |s.onward[o]| - 1 && |r.onward[newSource]| == |s.onward[newSource]| + 1) &&
      (o == newSource ==> |r.onward[o]| == |s.onward[o]|)
  {
  }

  /** upgradeSplay: a new station, named by the namer, becomes active. */
  lemma UpgradeSplayActivates(s: SurveyState, splay: Leg, mode: InputMode, namer: Namer)
    requires s.Valid()
    ensures var r := UpgradeStep(s, splay, mode, namer);
      r.active == s.nextStation && s.nextStation !in s.onward && r.names[r.active] == namer(s) &&
      r.onward.Keys == s.onward.Keys + {s.nextStation} && !r.saved
  {
  }

  /** editLeg: the edited leg, as a new object, is last among the holding station's legs and takes the old one's place in the record. */
  lemma EditLegSwaps(s: SurveyState, toEdit: Leg, edited: Leg)
    requires s.Valid()
    ensures s.OriginatingStation(toEdit).None? ==> EditStep(s, toEdit, edited) == s.(saved := false)
    ensures s.OriginatingStation(toEdit).Some? ==>
      var o, r, placed := s.OriginatingStation(toEdit).value, EditStep(s, toEdit, edited), edited.(id := s.nextLeg);
      |r.onward[o]| == |s.onward[o]| && r.onward[o][|r.onward[o]| - 1] == placed && |r.record| == |s.record| &&
      (toEdit in s.record ==> placed in r.record) && placed !in s.record && !r.saved
  {
    var placed := edited.(id := s.nextLeg);
    assert placed !in s.record by {
      forall k | 0 <= k < |s.record| ensures s.record[k] != placed {
        assert s.record[k].id < s.nextLeg;
      }
    }
  }

  /** addLegFromStation: the leg, as a new object, is last among the station's legs and last in the record; a connected leg makes its destination active. */
  lemma AddLegFromStationAppends(s: SurveyState, from: StationId, leg: Leg)
    requires s.Valid() && from in s.onward && (leg.destination.Some? ==> leg.destination.value in s.onward)
    ensures var r, placed := AddFromStep(s, from, leg), leg.(id := s.nextLeg);
      r.onward[from] == s.onward[from] + [placed] && r.record == s.record + [placed] && placed !in s.record &&
      (leg.destination.Some? ==> r.active == leg.destination.value) &&
      (leg.destination.None? ==> r.active == s.active) && !r.saved
  {
    var placed := leg.(id := s.nextLeg);
    assert placed !in s.record by {
      forall k | 0 <= k < |s.record| ensures s.record[k] != placed {
        assert s.record[k].id < s.nextLeg;
      }
    }
  }

  /** updateWithNewStation: the added leg always ends at a station, which becomes active; a splay is given a new one. */
  lemma UpdateWithNewStationConnects(s: SurveyState, leg: Leg, namer: Namer)
    requires s.Valid() && (leg.destination.Some? ==> leg.destination.value in s.onward)
    ensures var r := AddWithNewStationStep(s, leg, namer);
      var added := r.record[|r.record| - 1];
      |r.record| == |s.record| + 1 && added.destination == Some(r.active) && r.active in r.onward &&
      (leg.destination.None? ==> r.active == s.nextStation && s.nextStation !in s.onward && r.names[r.active] == namer(s))
  {
    if leg.destination.None? {
      var t := s.WithStation(namer(s), Right);
      AddLegFromStationAppends(t, s.active, ToFullLeg(leg, s.nextStation));
    } else {
      AddLegFromStationAppends(s, s.active, leg);
    }
  }

  // ---- the updater on the mutable survey ---------------------------------------

  /** incorporateIntoReferringLeg: the referring leg is swapped for one averaged from all its shots and the new one. */
  method IncorporateIntoReferringLeg(survey: Survey, ref: Leg, shot: Leg, mode: InputMode)
    requires survey.Valid() && survey.State().OriginatingStation(ref).Some?
    modifies survey
    ensures survey.State() == Replaced(old(survey.State()), ref, IncorporatedLeg(ref, shot, old(survey.active), mode))
    ensures survey.trip == old(survey.trip)
  {
    var allShots := ref.promotedFrom + [shot];
    var averaged := AverageLegs(allShots);
    var updated := UpgradeSplayToConnectedLeg(averaged, survey.active, allShots, ref.backsightPromotedFrom);
    if mode == Backward {
      updated := Reverse(updated);
    }
    ghost var s := survey.State();
    ReplaceReferringLeg(survey, ref, updated);
    ReplacedFields(s, ref, updated);
  }

  /** addBacksightToReferringLeg: the referring leg is swapped for one with the same measurements and one more backsight shot. */
  method AddBacksightToReferringLeg(survey: Survey, ref: Leg, shot: Leg, mode: InputMode)
    requires survey.Valid() && survey.State().OriginatingStation(ref).Some?
    modifies survey
    ensures survey.State() == Replaced(old(survey.State()), ref, BacksightAddedLeg(ref, shot, old(survey.active), mode))
    ensures survey.trip == old(survey.trip)
  {
    var updated := UpgradeSplayToConnectedLeg(ToSplay(ref), survey.active, ref.promotedFrom, ref.backsightPromotedFrom + [shot]);
    if mode == Backward {
      updated := Reverse(updated);
    }
    ghost var s := survey.State();
    ReplaceReferringLeg(survey, ref, updated);
    ReplacedFields(s, ref, updated);
  }

  /** The common tail of both: off the originating station and the record, the new leg appended to both. */
  method ReplaceReferringLeg(survey: Survey, ref: Leg, updated: Leg)
    requires survey.State().OriginatingStation(ref).Some?
    modifies survey`onward, survey`record, survey`saved, survey`nextLeg
    ensures var s := old(survey.State());
      var o := s.OriginatingStation(ref).value;
      var placed := updated.(id := s.nextLeg);
      survey.State() ==
        SurveyState(s.names, s.comments, s.directions, s.onward[o := RemoveFirst(s.onward[o], ref) + [placed]],
                    s.origin, s.active, RemoveFirst(s.record, ref) + [placed], false, s.nextStation, s.nextLeg + 1)
    ensures survey.trip == old(survey.trip)
  {
    hide SurveyState.OriginatingStation;
    var originating := survey.State().OriginatingStation(ref).value;
    var placed := survey.NewIdentity(updated);
    MoveOnwardLegToEnd(survey, originating, ref, placed);
    MoveLegRecordToEnd(survey, ref, placed);
    survey.SetSaved(false);
  }

  /** station.getOnwardLegs().remove(leg) then add(placed). */
  method MoveOnwardLegToEnd(survey: Survey, station: StationId, leg: Leg, placed: Leg)
    requires station in survey.onward
    modifies survey`onward
    ensures survey.onward == old(survey.onward)[station := RemoveFirst(old(survey.onward)[station], leg) + [placed]]
  {
    survey.RemoveOnwardLeg(station, leg);
    ghost var m := survey.onward;
    survey.AddOnwardLeg(station, placed);
    assert m[station := m[station] + [placed]]
      == old(survey.onward)[station := RemoveFirst(old(survey.onward)[station], leg) + [placed]];
  }

  /** survey.removeLegRecord(leg) then addLegRecord(placed). */
  method MoveLegRecordToEnd(survey: Survey, leg: Leg, placed: Leg)
    modifies survey`record
    ensures survey.record == RemoveFirst(old(survey.record), leg) + [placed]
  {
    survey.RemoveLegRecord(leg);
    survey.AddLegRecord(placed);
  }

  lemma ReplacedFields(s: SurveyState, previous: Leg, updated: Leg)
    requires s.Valid() && s.OriginatingStation(previous).Some?
    ensures var o := s.OriginatingStation(previous).value;
      var placed := updated.(id := s.nextLeg);
      Replaced(s, previous, updated) ==
        SurveyState(s.names, s.comments, s.directions, s.onward[o := RemoveFirst(s.onward[o], previous) + [placed]],
                    s.origin, s.active, RemoveFirst(s.record, previous) + [placed], false, s.nextStation, s.nextLeg + 1)
  {
  }

  /** tryIncorporateIntoExistingLeg: true when the shot went into the referring leg, in which case nothing else is done with it. */
  method TryIncorporateIntoExistingLeg(survey: Survey, shot: Leg, mode: InputMode, tol: Tolerances) returns (incorporated: bool)
    requires survey.Valid()
    modifies survey
    ensures var s := old(survey.State());
      var inc := IncorporationOf(s, shot, mode, tol);
      incorporated == (inc != NoMatch) &&
      (inc == NoMatch ==> survey.State() == s) &&
      (inc != NoMatch ==> survey.State() == Incorporated(s, shot, inc, mode))
    ensures survey.trip == old(survey.trip)
  {
    ghost var s := survey.State();
    if mode == CalibrationCheck {
      return false;
    }
    var referring := survey.State().ReferringLeg(survey.active);
    if referring.None? || !referring.value.1.WasPromoted() {
      return false;
    }
    var ref := referring.value.1;
    var originalShots := ref.promotedFrom;
    if |originalShots| == 0 {
      return false;
    }
    var matchesOriginal := AreLegsAboutTheSame([originalShots[0], shot], tol);
    var matchesBacksight := AreLegsAboutTheSame([AsBacksight(originalShots[0]), shot], tol);
    ReferringLegOriginates(s, s.active);
    if ref.HasBacksightShots() {
      if matchesBacksight {
        AddBacksightToReferringLeg(survey, ref, shot, mode);
        return true;
      }
      return false;
    }
    if matchesOriginal {
      IncorporateIntoReferringLeg(survey, ref, shot, mode);
      return true;
    }
    if matchesBacksight {
      AddBacksightToReferringLeg(survey, ref, shot, mode);
      return true;
    }
    return false;
  }

  /** survey.undoAddLeg() n times: the newest n record entries leave the record and the active station's legs, newest first. */
  method UndoLastLegs(survey: Survey, n: nat)
    requires n <= |survey.record| && survey.active in survey.onward
    modifies survey`record, survey`onward
    ensures var undone := Backwards(old(survey.record)[|old(survey.record)| - n..]);
      survey.record == old(survey.record)[..|old(survey.record)| - n] &&
      survey.onward == old(survey.onward)[survey.active := RemoveEach(old(survey.onward)[survey.active], undone)]
  {
    ghost var record0, onward0, a := survey.record, survey.onward, survey.active;
    ghost var undone := Backwards(record0[|record0| - n..]);
    ghost var left := onward0[a];
    for i := 0 to n
      invariant survey.record == record0[..|record0| - i]
      invariant survey.onward == onward0[a := left]
      invariant RemoveEach(left, undone[i..]) == RemoveEach(onward0[a], undone)
    {
      assert survey.record[|survey.record| - 1] == undone[i];
      survey.UndoAddLeg();
      assert undone[i..][1..] == undone[i + 1..];
      left := RemoveFirst(left, undone[i]);
    }
  }

  /**
   * The tail of both promotions: the newest n record entries are undone,
   * the new leg, as a new object, goes last among the active station's
   * legs and last in the record, and the new station becomes active.
   */
  method ReplaceNewestLegs(survey: Survey, n: nat, newStation: StationId, newLeg: Leg)
    requires n <= |survey.record| && survey.active in survey.onward
    modifies survey
    ensures var a, placed := old(survey.active), newLeg.(id := old(survey.nextLeg));
      var m := old(survey.onward)[a := RemoveEach(old(survey.onward)[a], Backwards(old(survey.record)[|old(survey.record)| - n..]))];
      survey.onward == m[a := m[a] + [placed]] &&
      survey.record == old(survey.record)[..|old(survey.record)| - n] + [placed] &&
      survey.active == newStation && survey.nextLeg == old(survey.nextLeg) + 1
    ensures survey.names == old(survey.names) && survey.comments == old(survey.comments)
    ensures survey.directions == old(survey.directions) && survey.origin == old(survey.origin)
    ensures survey.saved == old(survey.saved) && survey.nextStation == old(survey.nextStation)
    ensures survey.trip == old(survey.trip)
  {
    var activeStation := survey.active;
    UndoLastLegs(survey, n);
    var placed := survey.NewIdentity(newLeg);
    survey.AddOnwardLeg(activeStation, placed);
    survey.AddLegRecord(placed);
    survey.SetActiveStation(newStation);
  }

  /** PromoteLast written out field by field over the snapshot it starts from. */
  ghost function PromotedFields(s: SurveyState, n: nat, name: string, leg: Leg): SurveyState
    requires n <= |s.record| && s.active in s.onward && s.active in s.directions
  {
    var placed := leg.(id := s.nextLeg);
    var m := s.onward[s.nextStation := []];
    var m' := m[s.active := RemoveEach(m[s.active], Backwards(s.record[|s.record| - n..]))];
    SurveyState(s.names[s.nextStation := name], s.comments[s.nextStation := ""],
                s.directions[s.nextStation := s.directions[s.active]], m'[s.active := m'[s.active] + [placed]],
                s.origin, s.nextStation, s.record[..|s.record| - n] + [placed], s.saved, s.nextStation + 1, s.nextLeg + 1)
  }

  lemma PromoteLastFields(s: SurveyState, n: nat, name: string, leg: Leg)
    requires s.Valid() && n <= |s.record|
    ensures PromoteLast(s, n, name, leg) == PromotedFields(s, n, name, leg)
  {
    var t := s.WithStation(name, s.directions[s.active]);
    assert s.active != s.nextStation;
    var placed := leg.(id := s.nextLeg);
    var kept := RemoveEach(s.onward[s.active], Backwards(s.record[|s.record| - n..]));
    var m := t.onward[s.active := kept];
    assert m[s.active := m[s.active] + [placed]] == t.onward[s.active := kept + [placed]];
  }

  /**
   * The station-creating half of createNewStationIfTripleShot: a new
   * station is made, the shots are averaged into a leg to it (reversed in
   * backsight mode), and that leg takes the place of the newest n legs.
   */
  method PromoteRepeatedShots(survey: Survey, n: nat, name: string, shots: seq<Leg>, backsightMode: bool)
    requires n <= |survey.record| && |shots| > 0
    requires survey.active in survey.onward && survey.active in survey.directions
    modifies survey
    ensures var s := old(survey.State());
      survey.State() == PromotedFields(s, n, name, PromotedLeg(shots, s.nextStation, backsightMode))
    ensures survey.trip == old(survey.trip)
  {
    hide PromotedLeg, RemoveEach, Backwards;
    var newStation := survey.NewStation(name, survey.directions[survey.active]);
    var newLeg := BuildPromotedLeg(shots, newStation, backsightMode);
    ReplaceNewestLegs(survey, n, newStation, newLeg);
  }

  /** The leg createNewStationIfTripleShot builds from the repeated shots. */
  method BuildPromotedLeg(shots: seq<Leg>, destination: StationId, backsightMode: bool) returns (newLeg: Leg)
    requires |shots| > 0
    ensures newLeg == PromotedLeg(shots, destination, backsightMode)
  {
    newLeg := AverageLegs(shots);
    newLeg := UpgradeSplayToConnectedLeg(newLeg, destination, shots, []);
    if backsightMode {
      newLeg := Reverse(newLeg);
    }
  }

  /** The station-creating half of createNewStationIfBacksight: the pair averaged into a leg to a new station. */
  method PromoteBacksightPair(survey: Survey, name: string, fore: Leg, back: Leg)
    requires 2 <= |survey.record|
    requires survey.active in survey.onward && survey.active in survey.directions
    modifies survey
    ensures var s := old(survey.State());
      survey.State() == PromotedFields(s, 2, name, PairLeg(fore, back, s.nextStation))
    ensures survey.trip == old(survey.trip)
  {
    var newStation := survey.NewStation(name, survey.directions[survey.active]);
    var newLeg := BuildPairLeg(fore, back, newStation);
    ReplaceNewestLegs(survey, 2, newStation, newLeg);
  }

  /** The leg createNewStationIfBacksight builds from a fore and back sight. */
  method BuildPairLeg(fore: Leg, back: Leg, destination: StationId) returns (newLeg: Leg)
    ensures newLeg == PairLeg(fore, back, destination)
  {
    newLeg := AverageBacksights(fore, back);
    newLeg := ToFullLeg(newLeg, destination);
  }

  /** createNewStationIfTripleShot's test, as its guards and loop make it. */
  method IsTripleShot(survey: Survey, n: nat, tol: Tolerances) returns (fires: bool)
    requires survey.active in survey.onward && n >= 1
    ensures fires == TripleShot(survey.State(), n, tol)
  {
    var activeLegs := survey.onward[survey.active];
    if |activeLegs| < n {
      return false;
    }
    var lastNLegs := survey.State().LastLegs(n);
    if |lastNLegs| < n {
      return false;
    }
    for i := 0 to |lastNLegs|
      invariant forall k :: 0 <= k < i ==> lastNLegs[k] in activeLegs
    {
      if lastNLegs[i] !in activeLegs {
        return false;
      }
    }
    fires := AreLegsAboutTheSame(lastNLegs, tol);
  }

  /** createNewStationIfTripleShot: the newest n shots, all splays of the active station and about the same, become one leg to a new station. */
  method CreateNewStationIfTripleShot(survey: Survey, backsightMode: bool, n: nat, tol: Tolerances, namer: Namer) returns (created: bool)
    requires survey.Valid() && n >= 1
    modifies survey
    ensures Outcome(survey.State(), created) == TripleShotStep(old(survey.State()), backsightMode, n, tol, namer)
    ensures survey.trip == old(survey.trip)
  {
    ghost var s := survey.State();
    var fires := IsTripleShot(survey, n, tol);
    if !fires {
      return false;
    }
    var lastNLegs := survey.State().LastLegs(n);
    var name := namer(survey.State());
    PromoteRepeatedShots(survey, n, name, lastNLegs, backsightMode);
    PromoteLastFields(s, n, name, PromotedLeg(lastNLegs, s.nextStation, backsightMode));
    return true;
  }

  /** createNewStationIfBacksight's test, as its guards and loop make it. */
  method IsBacksightPair(survey: Survey, tol: Tolerances) returns (fires: bool)
    requires survey.active in survey.onward
    ensures fires == BacksightPair(survey.State(), tol)
  {
    var activeLegs := survey.onward[survey.active];
    if |activeLegs| < 2 {
      return false;
    }
    var lastPair := survey.State().LastLegs(2);
    if |lastPair| < 2 {
      return false;
    }
    for i := 0 to |lastPair|
      invariant forall k :: 0 <= k < i ==> lastPair[k] in activeLegs
    {
      if lastPair[i] !in activeLegs {
        return false;
      }
    }
    fires := AreLegsBacksights(lastPair[|lastPair| - 2], lastPair[|lastPair| - 1], tol);
  }

  /** createNewStationIfBacksight: the two newest shots, splays of the active station agreeing as fore and back sight, become one leg to a new station. */
  method CreateNewStationIfBacksight(survey: Survey, tol: Tolerances, namer: Namer) returns (created: bool)
    requires survey.Valid()
    modifies survey
    ensures Outcome(survey.State(), created) == BacksightStep(old(survey.State()), tol, namer)
    ensures survey.trip == old(survey.trip)
  {
    ghost var s := survey.State();
    var fires := IsBacksightPair(survey, tol);
    if !fires {
      return false;
    }
    var lastPair := survey.State().LastLegs(2);
    var fore := lastPair[|lastPair| - 2];
    var back := lastPair[|lastPair| - 1];
    var name := namer(survey.State());
    PromoteBacksightPair(survey, name, fore, back);
    PromoteLastFields(s, 2, name, PairLeg(fore, back, s.nextStation));
    return true;
  }

  /** The shot appended to the active station's legs and to the record, the survey marked unsaved. */
  method AppendToActive(survey: Survey, leg: Leg)
    requires survey.Valid() && leg.id < survey.nextLeg
    modifies survey
    ensures survey.State() == AddedToActive(old(survey.State()), leg)
    ensures survey.trip == old(survey.trip)
  {
    survey.AddOnwardLeg(survey.active, leg);
    survey.SetSaved(false);
    survey.AddLegRecord(leg);
  }

  /** The switch on the input mode at the end of update; COMBO tries a backsight pair first. */
  method TryPromotion(survey: Survey, mode: InputMode, n: nat, tol: Tolerances, namer: Namer) returns (created: bool)
    requires survey.Valid() && n >= 1
    modifies survey
    ensures Outcome(survey.State(), created) == PromotionStep(old(survey.State()), mode, n, tol, namer)
    ensures survey.trip == old(survey.trip)
  {
    match mode
    case Forward =>
      created := CreateNewStationIfTripleShot(survey, false, n, tol, namer);
    case Backward =>
      created := CreateNewStationIfTripleShot(survey, true, n, tol, namer);
    case Combo =>
      created := CreateNewStationIfBacksight(survey, tol, namer);
      if !created {
        created := CreateNewStationIfTripleShot(survey, false, n, tol, namer);
      }
    case CalibrationCheck =>
      created := false;
  }

  /** update(survey, leg, inputMode): whether the shot made a new station. */
  method Update(survey: Survey, shot: Leg, mode: InputMode, n: nat, tol: Tolerances, namer: Namer) returns (created: bool)
    requires survey.Valid() && n >= 1
    modifies survey
    ensures Outcome(survey.State(), created) == UpdateStep(old(survey.State()), shot, mode, n, tol, namer)
    ensures survey.trip == old(survey.trip)
  {
    ghost var s := survey.State();
    var leg := survey.NewIdentity(shot);
    assert survey.State() == Reserved(s);
    var incorporated := TryIncorporateIntoExistingLeg(survey, leg, mode, tol);
    if incorporated {
      return false;
    }
    AppendToActive(survey, leg);
    created := TryPromotion(survey, mode, n, tol, namer);
  }

  /** update(survey, legs, inputMode): each shot in turn until one of them makes a new station. */
  method UpdateAll(survey: Survey, shots: seq<Leg>, mode: InputMode, n: nat, tol: Tolerances, namer: Namer) returns (anyStationsAdded: bool)
    requires survey.Valid() && n >= 1
    modifies survey
    ensures Outcome(survey.State(), anyStationsAdded) == UpdateAllStep(old(survey.State()), shots, mode, n, tol, namer)
    ensures survey.trip == old(survey.trip)
  {
    ghost var s := survey.State();
    anyStationsAdded := false;
    for i := 0 to |shots|
      invariant survey.Valid() && survey.trip == old(survey.trip)
      invariant !anyStationsAdded ==> UpdateAllStep(s, shots, mode, n, tol, namer) == UpdateAllStep(survey.State(), shots[i..], mode, n, tol, namer)
      invariant anyStationsAdded ==> UpdateAllStep(s, shots, mode, n, tol, namer) == Outcome(survey.State(), true)
    {
      if !anyStationsAdded {
        assert shots[i..][1..] == shots[i + 1..];
        anyStationsAdded := Update(survey, shots[i], mode, n, tol, namer);
      }
    }
  }

  // ---- tree edits on the survey object ---------------------------------------

  /** editLeg: the first station in pre-order holding the leg swaps it for the edited one; the survey is marked unsaved. */
  method EditLeg(survey: Survey, toEdit: Leg, edited: Leg)
    requires survey.Valid()
    modifies survey
    ensures survey.State() == EditStep(old(survey.State()), toEdit, edited)
    ensures survey.trip == old(survey.trip)
  {
    ghost var s := survey.State();
    var origin := survey.State().OriginatingStation(toEdit);
    if origin.Some? {
      SwapLeg(survey, origin.value, toEdit, edited);
    } else {
      survey.SetSaved(false);
    }
    EditFields(s, toEdit, edited);
  }

  /**
   * The visitor of editLeg and reverseLeg at the station holding the leg:
   * off the station, the new leg (a new object) on at the end, and in the
   * old one's place in the record; then the survey is marked unsaved.
   */
  method SwapLeg(survey: Survey, origin: StationId, toEdit: Leg, edited: Leg)
    requires origin in survey.onward
    modifies survey`onward, survey`record, survey`nextLeg, survey`saved
    ensures var placed := edited.(id := old(survey.nextLeg));
      survey.onward == old(survey.onward)[origin := RemoveFirst(old(survey.onward)[origin], toEdit) + [placed]] &&
      survey.record == ReplaceFirst(old(survey.record), toEdit, placed) &&
      survey.nextLeg == old(survey.nextLeg) + 1 && !survey.saved
  {
    var placed := survey.NewIdentity(edited);
    survey.RemoveOnwardLeg(origin, toEdit);
    survey.AddOnwardLeg(origin, placed);
    survey.ReplaceLegInRecord(toEdit, placed);
    survey.SetSaved(false);
  }

  /** EditStep field by field. */
  lemma EditFields(s: SurveyState, toEdit: Leg, edited: Leg)
    requires s.Valid()
    ensures s.OriginatingStation(toEdit).None? ==> EditStep(s, toEdit, edited) == s.(saved := false)
    ensures s.OriginatingStation(toEdit).Some? ==>
      var o, placed := s.OriginatingStation(toEdit).value, edited.(id := s.nextLeg);
      EditStep(s, toEdit, edited) ==
        SurveyState(s.names, s.comments, s.directions, s.onward[o := RemoveFirst(s.onward[o], toEdit) + [placed]],
                    s.origin, s.active, ReplaceFirst(s.record, toEdit, placed), false, s.nextStation, s.nextLeg + 1)
  {
  }

  /** renameStation: the error message when the name is taken, and then nothing changes. */
  method RenameStation(survey: Survey, station: StationId, name: string) returns (error: Option<string>)
    requires survey.Valid() && station in survey.onward
    modifies survey
    ensures var r := RenameStep(old(survey.State()), station, name);
      (r.Err? ==> error == Some(r.error) && survey.State() == old(survey.State())) &&
      (r.Ok? ==> error == None && survey.State() == r.value)
    ensures survey.trip == old(survey.trip)
  {
    var existing := survey.State().StationByName(name);
    if existing.Some? {
      return Some(NotUniqueError);
    }
    survey.SetName(station, name);
    survey.SetSaved(false);
    return None;
  }

  /** renameOrigin. */
  method RenameOrigin(survey: Survey, name: string) returns (error: Option<string>)
    requires survey.Valid()
    modifies survey
    ensures var r := RenameStep(old(survey.State()), old(survey.origin), name);
      (r.Err? ==> error == Some(r.error) && survey.State() == old(survey.State())) &&
      (r.Ok? ==> error == None && survey.State() == r.value)
    ensures survey.trip == old(survey.trip)
  {
    error := RenameStation(survey, survey.origin, name);
  }

  /** moveLeg: the leg leaves its originating station and hangs off the new source. */
  method MoveLeg(survey: Survey, leg: Leg, newSource: StationId)
    requires survey.Valid() && survey.State().OriginatingStation(leg).Some? && newSource in survey.onward
    modifies survey
    ensures survey.State() == MoveStep(old(survey.State()), leg, newSource)
    ensures survey.trip == old(survey.trip)
  {
    ghost var s := survey.State();
    var originating := survey.State().OriginatingStation(leg).value;
    MoveBetween(survey, originating, leg, newSource);
    MoveFields(s, leg, newSource);
  }

  method MoveBetween(survey: Survey, originating: StationId, leg: Leg, newSource: StationId)
    requires originating in survey.onward && newSource in survey.onward
    modifies survey`onward, survey`saved
    ensures var m := old(survey.onward)[originating := RemoveFirst(old(survey.onward)[originating], leg)];
      survey.onward == m[newSource := m[newSource] + [leg]] && !survey.saved
  {
    survey.RemoveOnwardLeg(originating, leg);
    survey.AddOnwardLeg(newSource, leg);
    survey.SetSaved(false);
  }

  /** MoveStep field by field. */
  lemma MoveFields(s: SurveyState, leg: Leg, newSource: StationId)
    requires s.Valid() && s.OriginatingStation(leg).Some? && newSource in s.onward
    ensures var o := s.OriginatingStation(leg).value;
      var m := s.onward[o := RemoveFirst(s.onward[o], leg)];
      MoveStep(s, leg, newSource) ==
        SurveyState(s.names, s.comments, s.directions, m[newSource := m[newSource] + [leg]],
                    s.origin, s.active, s.record, false, s.nextStation, s.nextLeg)
  {
  }

  /** survey.removeLegRecord for each leg in turn. */
  method RemoveLegRecords(survey: Survey, legs: seq<Leg>)
    modifies survey`record
    ensures survey.record == RemoveEach(old(survey.record), legs)
  {
    ghost var record0 := survey.record;
    for i := 0 to |legs|
      invariant RemoveEach(survey.record, legs[i..]) == RemoveEach(record0, legs)
    {
      assert legs[i..][1..] == legs[i + 1..];
      survey.RemoveLegRecord(legs[i]);
    }
  }

  /** deleteLeg: the legs of the destination's subtree leave the record, then the leg leaves the record and its station. */
  method DeleteLeg(survey: Survey, from: StationId, leg: Leg)
    requires survey.Valid() && from in survey.onward
    modifies survey
    ensures survey.State() == DeleteLegStep(old(survey.State()), from, leg)
    ensures survey.trip == old(survey.trip)
  {
    ghost var s := survey.State();
    var subLegs := if leg.destination.Some? then survey.State().SubtreeLegs(leg.destination.value) else [];
    RemoveLegAndRecords(survey, from, leg, subLegs);
    assert RemoveEach(s.record, []) == s.record;
  }

  /** deleteLeg once the subtree's legs are known: they leave the record, then the leg leaves the record and its station. */
  method RemoveLegAndRecords(survey: Survey, from: StationId, leg: Leg, subLegs: seq<Leg>)
    requires from in survey.onward
    modifies survey`record, survey`onward, survey`saved
    ensures survey.record == RemoveFirst(RemoveEach(old(survey.record), subLegs), leg)
    ensures survey.onward == old(survey.onward)[from := RemoveFirst(old(survey.onward)[from], leg)] && !survey.saved
  {
    if subLegs != [] {
      RemoveLegRecords(survey, subLegs);
    }
    survey.RemoveLegRecord(leg);
    survey.RemoveOnwardLeg(from, leg);
    survey.SetSaved(false);
  }

  /** deleteStation: any station but the origin is deleted with the leg that leads to it. */
  method DeleteStation(survey: Survey, station: StationId)
    requires survey.Valid() && (station != survey.origin ==> survey.State().ReferringLeg(station).Some?)
    modifies survey
    ensures survey.State() == DeleteStationStep(old(survey.State()), station)
    ensures survey.trip == old(survey.trip)
  {
    if station != survey.origin {
      var referringLeg := survey.State().ReferringLeg(station).value.1;
      ReferringLegOriginates(survey.State(), station);
      var fromStation := survey.State().OriginatingStation(referringLeg).value;
      DeleteLeg(survey, fromStation, referringLeg);
    }
  }

  /** downgradeLeg: the error message when the destination has onward legs, and then nothing changes. */
  method DowngradeLeg(survey: Survey, leg: Leg) returns (error: Option<string>)
    requires survey.Valid() && (leg.destination.Some? ==> leg.destination.value in survey.onward)
    modifies survey
    ensures var r := DowngradeStep(old(survey.State()), leg);
      (r.Err? ==> error == Some(r.error) && survey.State() == old(survey.State())) &&
      (r.Ok? ==> error == None && survey.State() == r.value)
    ensures survey.trip == old(survey.trip)
  {
    if leg.destination.None? {
      return None;
    }
    if survey.onward[leg.destination.value] != [] {
      return Some(HasOnwardLegsError);
    }
    EditLeg(survey, leg, ToSplay(leg));
    survey.SetSaved(false);
    return None;
  }

  /** reverseLeg: the leg leading to the station is read from the far end. */
  method ReverseLeg(survey: Survey, toReverse: StationId)
    requires survey.Valid()
    modifies survey
    ensures survey.State() == ReverseStep(old(survey.State()), toReverse)
    ensures survey.trip == old(survey.trip)
  {
    ghost var s := survey.State();
    var referring := survey.State().ReferringLeg(toReverse);
    if referring.Some? {
      var (origin, leg) := referring.value;
      SwapLeg(survey, origin, leg, Reverse(leg));
    } else {
      survey.SetSaved(false);
    }
    ReverseFields(s, toReverse);
  }

  /** ReverseStep field by field. */
  lemma ReverseFields(s: SurveyState, station: StationId)
    requires s.Valid()
    ensures s.ReferringLeg(station).None? ==> ReverseStep(s, station) == s.(saved := false)
    ensures s.ReferringLeg(station).Some? ==>
      var (o, leg) := s.ReferringLeg(station).value;
      var placed := Reverse(leg).(id := s.nextLeg);
      ReverseStep(s, station) ==
        SurveyState(s.names, s.comments, s.directions, s.onward[o := RemoveFirst(s.onward[o], leg) + [placed]],
                    s.origin, s.active, ReplaceFirst(s.record, leg, placed), false, s.nextStation, s.nextLeg + 1)
  {
  }

  /** setDirectionOfSubtree: the station, then every station behind it, takes the direction. */
  method SetDirectionOfSubtree(survey: Survey, station: StationId, direction: Direction)
    requires survey.Valid()
    modifies survey
    ensures survey.State() == DirectionStep(old(survey.State()), station, direction)
    ensures survey.trip == old(survey.trip)
  {
    var sub := survey.State().Subtree(station);
    SetDirections(survey, sub, direction);
  }

  /** Each of the stations in turn takes the direction. */
  method SetDirections(survey: Survey, stations: seq<StationId>, direction: Direction)
    requires forall k :: 0 <= k < |stations| ==> stations[k] in survey.directions
    modifies survey`directions
    ensures survey.directions == map st | st in old(survey.directions) :: if st in stations then direction else old(survey.directions)[st]
  {
    ghost var d0 := survey.directions;
    for i := 0 to |stations|
      invariant survey.directions == map st | st in d0 :: if st in stations[..i] then direction else d0[st]
    {
      assert stations[..i + 1] == stations[..i] + [stations[i]];
      survey.SetDirection(stations[i], direction);
    }
    assert stations[..|stations|] == stations;
  }

  /** upgradeSplay: the splay becomes a connected leg to a new station, which becomes active. */
  method UpgradeSplay(survey: Survey, splay: Leg, mode: InputMode, namer: Namer)
    requires survey.Valid()
    modifies survey
    ensures survey.State() == UpgradeStep(old(survey.State()), splay, mode, namer)
    ensures survey.trip == old(survey.trip)
  {
    ghost var s := survey.State();
    var newStation := survey.NewStation(namer(survey.State()), Right);
    var newLeg := UpgradedLeg(splay, newStation, mode);
    EditLeg(survey, splay, newLeg);
    ghost var edited := survey.State();
    survey.SetActiveStation(newStation);
    assert survey.State() == edited.(active := s.nextStation);
  }

  /** The connected leg upgradeSplay makes, reversed in BACKWARD mode. */
  method UpgradedLeg(splay: Leg, newStation: StationId, mode: InputMode) returns (newLeg: Leg)
    ensures newLeg == var full := ToFullLeg(splay, newStation); if mode == Backward then Reverse(full) else full
  {
    newLeg := ToFullLeg(splay, newStation);
    if mode == Backward {
      newLeg := Reverse(newLeg);
    }
  }

  /** addLegFromStation. */
  method AddLegFromStation(survey: Survey, from: StationId, leg: Leg)
    requires survey.Valid() && from in survey.onward
    requires leg.destination.Some? ==> leg.destination.value in survey.onward
    modifies survey
    ensures survey.State() == AddFromStep(old(survey.State()), from, leg)
    ensures survey.trip == old(survey.trip)
  {
    ghost var s := survey.State();
    AppendLegAt(survey, from, leg);
    AddFromFields(s, from, leg);
  }

  method AppendLegAt(survey: Survey, from: StationId, leg: Leg)
    requires from in survey.onward
    modifies survey`onward, survey`saved, survey`record, survey`nextLeg, survey`active
    ensures var placed := leg.(id := old(survey.nextLeg));
      survey.onward == old(survey.onward)[from := old(survey.onward)[from] + [placed]] &&
      survey.record == old(survey.record) + [placed] && !survey.saved && survey.nextLeg == old(survey.nextLeg) + 1 &&
      survey.active == if leg.destination.Some? then leg.destination.value else old(survey.active)
  {
    var placed := survey.NewIdentity(leg);
    survey.AddOnwardLeg(from, placed);
    survey.SetSaved(false);
    survey.AddLegRecord(placed);
    if leg.destination.Some? {
      survey.SetActiveStation(leg.destination.value);
    }
  }

  /** AddFromStep field by field. */
  lemma AddFromFields(s: SurveyState, from: StationId, leg: Leg)
    requires s.Valid() && from in s.onward && (leg.destination.Some? ==> leg.destination.value in s.onward)
    ensures var placed := leg.(id := s.nextLeg);
      AddFromStep(s, from, leg) ==
        SurveyState(s.names, s.comments, s.directions, s.onward[from := s.onward[from] + [placed]], s.origin,
                    if leg.destination.Some? then leg.destination.value else s.active,
                    s.record + [placed], false, s.nextStation, s.nextLeg + 1)
  {
  }

  /** updateWithNewStation. */
  method UpdateWithNewStation(survey: Survey, leg: Leg, namer: Namer)
    requires survey.Valid() && (leg.destination.Some? ==> leg.destination.value in survey.onward)
    modifies survey
    ensures survey.State() == AddWithNewStationStep(old(survey.State()), leg, namer)
    ensures survey.trip == old(survey.trip)
  {
    var activeStation := survey.active;
    var toAdd := leg;
    if !leg.HasDestination() {
      var newStation := survey.NewStation(namer(survey.State()), Right);
      toAdd := ToFullLeg(leg, newStation);
    }
    AddLegFromStation(survey, activeStation, toAdd);
  }
}
