/**
 * The survey being drawn up: a tree of stations joined by legs, a flat
 * record of the legs in the order they were taken, the station new shots
 * hang off, and whether everything has been saved.
 *
 * Stations live in an arena keyed by number; each of the station's
 * attributes (name, comment, extended-elevation direction, onward legs) is
 * a map from that number. The survey's stations are the ones reachable
 * from the origin; a station cut off by a deletion stays in the maps but
 * is no longer reachable, as a Java object would be left to the collector.
 *
 * `SurveyState` is a snapshot of everything the survey holds except its
 * trip; the queries the survey answers (getStationByName, getReferringLeg,
 * getOriginatingStation, getLastNLegs) are functions of the snapshot, and
 * the mutable `Survey` object is specified through it.
 */
module SurveyModel {
  import opened Wrappers
  import opened Legs

  /** Team roles of a trip. */
  datatype Role = Book | Instruments | Exploration | Dog

  datatype TeamEntry = TeamEntry(name: string, roles: seq<Role>)

  /** A java.util.Date, as milliseconds since 1970-01-01 UTC. */
  datatype Date = Date(millis: int)

  datatype Trip = Trip(
    date: Date,
    comments: string,
    instrument: string,
    team: seq<TeamEntry>,
    explorationDateSameAsSurvey: bool,
    explorationDate: Option<Date>)

  // ---- list operations on legs --------------------------------------------

  /** List.remove(Object): the first element equal to x is taken out. */
  function RemoveFirst(s: seq<Leg>, x: Leg): (r: seq<Leg>)
    ensures x in s ==> |r| == |s| - 1
    ensures x !in s ==> r == s
    ensures forall k :: 0 <= k < |r| ==> r[k] in s
  {
    if s == [] then []
    else if s[0] == x then s[1..]
    else [s[0]] + RemoveFirst(s[1..], x)
  }

  /** RemoveFirst applied for each of xs in turn. */
  function RemoveEach(s: seq<Leg>, xs: seq<Leg>): (r: seq<Leg>)
    ensures forall k :: 0 <= k < |r| ==> r[k] in s
    decreases |xs|
  {
    if xs == [] then s else RemoveEach(RemoveFirst(s, xs[0]), xs[1..])
  }

  /** The first element equal to x is replaced by y where it stands. */
  function ReplaceFirst(s: seq<Leg>, x: Leg, y: Leg): (r: seq<Leg>)
    ensures |r| == |s|
    ensures x !in s ==> r == s
    ensures x in s ==> y in r
    ensures forall k :: 0 <= k < |r| ==> r[k] in s || r[k] == y
  {
    if s == [] then []
    else if s[0] == x then [y] + s[1..]
    else [s[0]] + ReplaceFirst(s[1..], x, y)
  }

  /** No leg occurs twice. */
  predicate Distinct(s: seq<Leg>)
  {
    forall i, j :: 0 <= i < j < |s| ==> s[i] != s[j]
  }

  /** In a list without repeats, removing x removes every occurrence of it and keeps the rest. */
  lemma {:induction false} RemoveFirstDistinct(s: seq<Leg>, x: Leg)
    requires Distinct(s)
    ensures Distinct(RemoveFirst(s, x))
    ensures x !in RemoveFirst(s, x)
    ensures forall y :: y in s && y != x ==> y in RemoveFirst(s, x)
  {
    if s != [] && s[0] != x {
      RemoveFirstDistinct(s[1..], x);
      var r := RemoveFirst(s, x);
      assert r == [s[0]] + RemoveFirst(s[1..], x);
      forall j | 0 <= j < |s| - 1 ensures s[1..][j] != s[0] {
        assert s[1..][j] == s[j + 1];
      }
      forall i, j | 0 <= i < j < |r| ensures r[i] != r[j] {
        if i == 0 {
          assert r[j] in s[1..];
        }
      }
    } else if s != [] {
      forall j | 0 <= j < |s| - 1 ensures s[1..][j] != s[0] {
        assert s[1..][j] == s[j + 1];
      }
    }
  }

  /** In a list without repeats, removing each of xs leaves none of them and keeps everything else. */
  lemma {:induction false} RemoveEachDistinct(s: seq<Leg>, xs: seq<Leg>)
    requires Distinct(s)
    ensures Distinct(RemoveEach(s, xs))
    ensures forall x :: x in xs ==> x !in RemoveEach(s, xs)
    ensures forall y :: y in s && y !in xs ==> y in RemoveEach(s, xs)
    decreases |xs|
  {
    if xs != [] {
      RemoveFirstDistinct(s, xs[0]);
      RemoveEachDistinct(RemoveFirst(s, xs[0]), xs[1..]);
    }
  }

  /** Every one of xs is in legs. */
  predicate AllIn(xs: seq<Leg>, legs: seq<Leg>)
  {
    forall k :: 0 <= k < |xs| ==> xs[k] in legs
  }

  /** Removing n different legs that are all present, from a list without repeats, shortens it by n. */
  lemma {:induction false} RemoveEachLength(s: seq<Leg>, xs: seq<Leg>)
    requires Distinct(s) && Distinct(xs) && AllIn(xs, s)
    ensures |RemoveEach(s, xs)| == |s| - |xs|
    decreases |xs|
  {
    if xs != [] {
      var s' := RemoveFirst(s, xs[0]);
      RemoveFirstDistinct(s, xs[0]);
      forall k | 0 <= k < |xs[1..]| ensures xs[1..][k] in s' {
        assert xs[1..][k] == xs[k + 1] && xs[k + 1] != xs[0];
      }
      assert Distinct(xs[1..]) by {
        forall i, j | 0 <= i < j < |xs[1..]| ensures xs[1..][i] != xs[1..][j] {
          assert xs[1..][i] == xs[i + 1] && xs[1..][j] == xs[j + 1];
        }
      }
      RemoveEachLength(s', xs[1..]);
    }
  }

  /** Every leg identity in legs was handed out before n. */
  predicate IdsBelow(legs: seq<Leg>, n: nat)
  {
    forall k :: 0 <= k < |legs| ==> legs[k].id < n
  }

  /** A list made of legs of ys and possibly y keeps identities below n. */
  lemma IdsBelowOf(xs: seq<Leg>, ys: seq<Leg>, y: Leg, n: nat)
    requires IdsBelow(ys, n) && y.id < n
    requires forall k :: 0 <= k < |xs| ==> xs[k] in ys || xs[k] == y
    ensures IdsBelow(xs, n)
  {
    forall k | 0 <= k < |xs| ensures xs[k].id < n {
      if xs[k] in ys {
        var j :| 0 <= j < |ys| && ys[j] == xs[k];
      }
    }
  }

  /**
   * Stations reachable from st through the onward legs in pre-order (a
   * station, then the subtree behind each of its connected legs in turn),
   * each entered at most once: `rem` holds the stations not yet entered.
   */
  function Reach(onward: map<StationId, seq<Leg>>, st: StationId, rem: set<StationId>): (r: seq<StationId>)
    ensures forall k :: 0 <= k < |r| ==> r[k] in onward && r[k] in rem
    decreases rem, 0
  {
    if st !in rem || st !in onward then [] else [st] + ReachLegs(onward, onward[st], rem - {st})
  }

  function ReachLegs(onward: map<StationId, seq<Leg>>, legs: seq<Leg>, rem: set<StationId>): (r: seq<StationId>)
    ensures forall k :: 0 <= k < |r| ==> r[k] in onward && r[k] in rem
    decreases rem, |legs| + 1
  {
    if legs == [] then []
    else
      (match legs[0].destination
       case Some(d) => Reach(onward, d, rem)
       case None => []) + ReachLegs(onward, legs[1..], rem)
  }

  // ---- the survey as a value ------------------------------------------------

  datatype SurveyState = SurveyState(
    names: map<StationId, string>,
    /** The empty string stands for a station without a comment. */
    comments: map<StationId, string>,
    directions: map<StationId, Direction>,
    onward: map<StationId, seq<Leg>>,
    origin: StationId,
    active: StationId,
    /** Every leg in the order it was added. */
    record: seq<Leg>,
    saved: bool,
    nextStation: StationId,
    nextLeg: nat)
  {
    /** Every station has all its attributes; station numbers and leg identities handed out are below the counters. */
    ghost predicate Valid()
    {
      names.Keys == onward.Keys && comments.Keys == onward.Keys && directions.Keys == onward.Keys &&
      origin in onward && active in onward &&
      (forall st :: st in onward ==> st < nextStation) &&
      (forall st :: st in onward ==> IdsBelow(onward[st], nextLeg)) &&
      IdsBelow(record, nextLeg)
    }

    /** One station's legs replaced and the leg counter moved on keep the survey valid. */
    lemma ValidWithLegs(o: StationId, legs: seq<Leg>, record': seq<Leg>, n: nat)
      requires Valid() && o in onward && n >= nextLeg && IdsBelow(legs, n) && IdsBelow(record', n)
      ensures this.(onward := onward[o := legs], record := record', nextLeg := n).Valid()
    {
      var r := this.(onward := onward[o := legs], record := record', nextLeg := n);
      forall st | st in r.onward ensures IdsBelow(r.onward[st], n) {
        if st != o {
          assert IdsBelow(onward[st], nextLeg);
        }
      }
    }

    /** One station's legs and the record replaced, the leg counter moved on: the survey has changed since it was saved. */
    function WithLegs(o: StationId, legs: seq<Leg>, record': seq<Leg>, n: nat): (r: SurveyState)
      requires Valid() && o in onward && n >= nextLeg && IdsBelow(legs, n) && IdsBelow(record', n)
      ensures r.Valid()
      ensures r.onward == onward[o := legs] && r.record == record' && r.nextLeg == n && !r.saved
      ensures r.names == names && r.comments == comments && r.directions == directions
      ensures r.origin == origin && r.active == active && r.nextStation == nextStation
    {
      ValidWithLegs(o, legs, record', n);
      this.(onward := onward[o := legs], record := record', nextLeg := n).(saved := false)
    }

    /** The active station's onward legs. */
    function ActiveLegs(): seq<Leg>
    {
      if active in onward then onward[active] else []
    }

    /** new Station(name): a station numbered nextStation, with no legs and no comment. */
    function WithStation(name: string, direction: Direction): (r: SurveyState)
      requires Valid()
      ensures r.Valid()
      ensures nextStation !in onward && r.nextStation == nextStation + 1
      ensures r.onward == onward[nextStation := []] && r.names == names[nextStation := name]
      ensures r.comments == comments[nextStation := ""] && r.directions == directions[nextStation := direction]
      ensures r.origin == origin && r.active == active && r.record == record && r.saved == saved && r.nextLeg == nextLeg
    {
      assert IdsBelow([], nextLeg);
      this.(names := names[nextStation := name], comments := comments[nextStation := ""],
            directions := directions[nextStation := direction], onward := onward[nextStation := []],
            nextStation := nextStation + 1)
    }

    // ---- traversal --------------------------------------------------------

    /** The station and every station behind it, in pre-order. */
    function Subtree(st: StationId): (r: seq<StationId>)
      ensures forall k :: 0 <= k < |r| ==> r[k] in onward
      ensures st in onward ==> |r| > 0 && r[0] == st
    {
      Reach(onward, st, onward.Keys)
    }

    /** survey.getAllStations(). */
    function Stations(): seq<StationId>
    {
      Subtree(origin)
    }

    function FirstNamed(ss: seq<StationId>, name: string): (r: Option<StationId>)
      ensures r.Some? ==> r.value in ss && r.value in names && names[r.value] == name
      ensures r.None? ==> forall k :: 0 <= k < |ss| && ss[k] in names ==> names[ss[k]] != name
    {
      if ss == [] then None
      else if ss[0] in names && names[ss[0]] == name then Some(ss[0])
      else FirstNamed(ss[1..], name)
    }

    /** A name only x carries among ss is found at x. */
    lemma {:induction false} FirstNamedUnique(ss: seq<StationId>, x: StationId, name: string)
      requires x in ss && x in names && names[x] == name
      requires forall k :: 0 <= k < |ss| && ss[k] != x && ss[k] in names ==> names[ss[k]] != name
      ensures FirstNamed(ss, name) == Some(x)
    {
      if ss[0] != x {
        assert x in ss[1..];
        forall k | 0 <= k < |ss[1..]| && ss[1..][k] != x && ss[1..][k] in names ensures names[ss[1..][k]] != name {
          assert ss[1..][k] == ss[k + 1];
        }
        FirstNamedUnique(ss[1..], x, name);
      }
    }

    /** survey.getStationByName(name): the first station of that name in pre-order. */
    function StationByName(name: string): (r: Option<StationId>)
      ensures r.Some? ==> r.value in Stations() && r.value in names && names[r.value] == name
      ensures r.None? ==> forall k :: 0 <= k < |Stations()| && Stations()[k] in names ==> names[Stations()[k]] != name
    {
      FirstNamed(Stations(), name)
    }

    static function FirstLegTo(legs: seq<Leg>, target: StationId): (r: Option<Leg>)
      ensures r.Some? ==> r.value in legs && r.value.destination == Some(target)
      ensures r.None? ==> forall k :: 0 <= k < |legs| ==> legs[k].destination != Some(target)
    {
      if legs == [] then None
      else if legs[0].destination == Some(target) then Some(legs[0])
      else FirstLegTo(legs[1..], target)
    }

    function FirstReferring(ss: seq<StationId>, target: StationId): (r: Option<(StationId, Leg)>)
      ensures r.Some? ==> r.value.0 in ss && r.value.0 in onward && r.value.1 in onward[r.value.0]
      ensures r.Some? ==> r.value.1.destination == Some(target)
    {
      if ss == [] then None
      else if ss[0] in onward && FirstLegTo(onward[ss[0]], target).Some? then
        Some((ss[0], FirstLegTo(onward[ss[0]], target).value))
      else FirstReferring(ss[1..], target)
    }

    /** survey.getReferringLeg(station), with the station it leaves from. */
    function ReferringLeg(target: StationId): (r: Option<(StationId, Leg)>)
      ensures r.Some? ==> r.value.0 in Stations() && r.value.0 in onward && r.value.1 in onward[r.value.0]
      ensures r.Some? ==> r.value.1.destination == Some(target)
    {
      FirstReferring(Stations(), target)
    }

    function FirstHolding(ss: seq<StationId>, leg: Leg): (r: Option<StationId>)
      ensures r.Some? ==> r.value in onward && leg in onward[r.value]
      ensures r.None? ==> forall k :: 0 <= k < |ss| && ss[k] in onward ==> leg !in onward[ss[k]]
    {
      if ss == [] then None
      else if ss[0] in onward && leg in onward[ss[0]] then Some(ss[0])
      else FirstHolding(ss[1..], leg)
    }

    /** survey.getOriginatingStation(leg): the first station in pre-order holding the leg. */
    function OriginatingStation(leg: Leg): (r: Option<StationId>)
      ensures r.Some? ==> r.value in onward && leg in onward[r.value]
    {
      FirstHolding(Stations(), leg)
    }

    /** survey.getLastNLegs(n): the newest n record entries, or all of them if there are fewer. */
    function LastLegs(n: nat): (r: seq<Leg>)
      ensures |r| == if n <= |record| then n else |record|
      ensures r == record[|record| - |r|..]
    {
      if n <= |record| then record[|record| - n..] else record
    }

    function LegsOf(ss: seq<StationId>): seq<Leg>
    {
      if ss == [] then []
      else (if ss[0] in onward then onward[ss[0]] else []) + LegsOf(ss[1..])
    }

    /** Every leg hanging off the station or any station behind it. */
    function SubtreeLegs(st: StationId): seq<Leg>
    {
      LegsOf(Subtree(st))
    }
  }

  /** A leg found as the one referring to a station is found again by getOriginatingStation. */
  lemma ReferringLegOriginates(s: SurveyState, target: StationId)
    requires s.ReferringLeg(target).Some?
    ensures s.OriginatingStation(s.ReferringLeg(target).value.1).Some?
  {
    var (o, leg) := s.ReferringLeg(target).value;
    var k :| 0 <= k < |s.Stations()| && s.Stations()[k] == o;
  }

  /** The lookups read only the tree: two snapshots with the same legs and origin answer alike. */
  lemma {:induction false} FirstReferringOfSameTree(s: SurveyState, t: SurveyState, ss: seq<StationId>, target: StationId)
    requires s.onward == t.onward
    ensures s.FirstReferring(ss, target) == t.FirstReferring(ss, target)
  {
    if ss != [] {
      FirstReferringOfSameTree(s, t, ss[1..], target);
    }
  }

  lemma {:induction false} FirstHoldingOfSameTree(s: SurveyState, t: SurveyState, ss: seq<StationId>, leg: Leg)
    requires s.onward == t.onward
    ensures s.FirstHolding(ss, leg) == t.FirstHolding(ss, leg)
  {
    if ss != [] {
      FirstHoldingOfSameTree(s, t, ss[1..], leg);
    }
  }

  lemma SameTreeSameLookups(s: SurveyState, t: SurveyState, target: StationId, leg: Leg)
    requires s.onward == t.onward && s.origin == t.origin
    ensures s.Stations() == t.Stations()
    ensures s.ReferringLeg(target) == t.ReferringLeg(target)
    ensures s.OriginatingStation(leg) == t.OriginatingStation(leg)
  {
    FirstReferringOfSameTree(s, t, s.Stations(), target);
    FirstHoldingOfSameTree(s, t, s.Stations(), leg);
  }

  /** The survey with the next leg identity taken by a new leg object. */
  function Reserved(s: SurveyState): (r: SurveyState)
    requires s.Valid()
    ensures r.Valid() && r.nextLeg == s.nextLeg + 1
    ensures r.onward == s.onward && r.record == s.record && r.active == s.active && r.origin == s.origin
    ensures r.names == s.names && r.directions == s.directions && r.nextStation == s.nextStation && r.saved == s.saved
  {
    assert IdsBelow(s.record, s.nextLeg + 1);
    s.(nextLeg := s.nextLeg + 1)
  }

  /** new Station(name) with its comment and direction set, numbered nextStation. */
  function Founded(s: SurveyState, name: string, comment: string, direction: Direction): (r: SurveyState)
    ensures r.onward == s.onward[s.nextStation := []] && r.nextStation == s.nextStation + 1
    ensures r.names == s.names[s.nextStation := name] && r.comments == s.comments[s.nextStation := comment]
    ensures r.directions == s.directions[s.nextStation := direction]
    ensures r.origin == s.origin && r.active == s.active && r.record == s.record && r.nextLeg == s.nextLeg && r.saved == s.saved
  {
    s.(names := s.names[s.nextStation := name], comments := s.comments[s.nextStation := comment],
       directions := s.directions[s.nextStation := direction], onward := s.onward[s.nextStation := []],
       nextStation := s.nextStation + 1)
  }

  /** station.addOnwardLeg(leg) and survey.addLegRecord(leg) for a new leg object. */
  function Attached(s: SurveyState, st: StationId, leg: Leg): (r: SurveyState)
    requires st in s.onward
    ensures r.onward == s.onward[st := s.onward[st] + [leg.(id := s.nextLeg)]]
    ensures r.record == s.record + [leg.(id := s.nextLeg)] && r.nextLeg == s.nextLeg + 1
    ensures r.names == s.names && r.comments == s.comments && r.directions == s.directions
    ensures r.origin == s.origin && r.active == s.active && r.nextStation == s.nextStation && r.saved == s.saved
  {
    var placed := leg.(id := s.nextLeg);
    s.(onward := s.onward[st := s.onward[st] + [placed]], record := s.record + [placed], nextLeg := s.nextLeg + 1)
  }

  lemma {:induction false} FirstNamedOfSameNames(s: SurveyState, t: SurveyState, ss: seq<StationId>, name: string)
    requires s.names == t.names
    ensures s.FirstNamed(ss, name) == t.FirstNamed(ss, name)
  {
    if ss != [] {
      FirstNamedOfSameNames(s, t, ss[1..], name);
    }
  }

  /** Station lookup by name reads only the tree and the names. */
  lemma StationByNameOfSameNames(s: SurveyState, t: SurveyState, name: string)
    requires s.names == t.names && s.onward == t.onward && s.origin == t.origin
    ensures s.StationByName(name) == t.StationByName(name)
  {
    assert s.Stations() == t.Stations();
    FirstNamedOfSameNames(s, t, s.Stations(), name);
  }

  // ---- the survey object ----------------------------------------------------

  class Survey {
    var names: map<StationId, string>
    var comments: map<StationId, string>
    var directions: map<StationId, Direction>
    var onward: map<StationId, seq<Leg>>
    var origin: StationId
    var active: StationId
    var record: seq<Leg>
    var saved: bool
    var trip: Option<Trip>
    var nextStation: StationId
    var nextLeg: nat

    function State(): SurveyState
      reads this
    {
      SurveyState(names, comments, directions, onward, origin, active, record, saved, nextStation, nextLeg)
    }

    ghost predicate Valid()
      reads this
    {
      State().Valid()
    }

    /** new Survey(): only the origin station, which is also the active one. */
    constructor (originName: string)
      ensures Valid()
      ensures names == map[0 := originName] && onward == map[0 := []]
      ensures comments == map[0 := ""] && directions == map[0 := Right]
      ensures origin == 0 && active == 0 && record == [] && saved && trip == None
      ensures nextStation == 1 && nextLeg == 0
    {
      names := map[0 := originName];
      comments := map[0 := ""];
      directions := map[0 := Right];
      onward := map[0 := []];
      origin := 0;
      active := 0;
      record := [];
      saved := true;
      trip := None;
      nextStation := 1;
      nextLeg := 0;
    }

    /** new Station(name) with the given direction. */
    method NewStation(name: string, direction: Direction) returns (st: StationId)
      modifies this`names, this`comments, this`directions, this`onward, this`nextStation
      ensures st == old(nextStation) && nextStation == old(nextStation) + 1
      ensures names == old(names)[st := name] && comments == old(comments)[st := ""]
      ensures directions == old(directions)[st := direction] && onward == old(onward)[st := []]
      ensures old(State()).Valid() ==> State() == old(State()).WithStation(name, direction)
    {
      ghost var before := State();
      st := nextStation;
      names := names[st := name];
      comments := comments[st := ""];
      directions := directions[st := direction];
      onward := onward[st := []];
      nextStation := nextStation + 1;
      assert State() == before.(names := names, comments := comments, directions := directions,
                                onward := onward, nextStation := nextStation);
    }

    /** A leg about to be placed in the survey is a new object: it gets an identity of its own. */
    method NewIdentity(leg: Leg) returns (placed: Leg)
      modifies this`nextLeg
      ensures placed == leg.(id := old(nextLeg)) && nextLeg == old(nextLeg) + 1
    {
      placed := leg.(id := nextLeg);
      nextLeg := nextLeg + 1;
    }

    /** survey.addLegRecord(leg). */
    method AddLegRecord(leg: Leg)
      modifies this`record
      ensures record == old(record) + [leg]
    {
      record := record + [leg];
    }

    /** survey.removeLegRecord(leg). */
    method RemoveLegRecord(leg: Leg)
      modifies this`record
      ensures record == RemoveFirst(old(record), leg)
    {
      record := RemoveFirst(record, leg);
    }

    /** survey.replaceLegInRecord(toEdit, edited): the edited leg takes the old one's place in the record. */
    method ReplaceLegInRecord(toEdit: Leg, edited: Leg)
      modifies this`record
      ensures record == ReplaceFirst(old(record), toEdit, edited)
    {
      record := ReplaceFirst(record, toEdit, edited);
    }

    /** survey.undoAddLeg(): the newest record entry leaves the record and the active station's legs. */
    method UndoAddLeg()
      requires record != [] && active in onward
      modifies this`record, this`onward
      ensures record == old(record)[..|old(record)| - 1]
      ensures onward == old(onward)[active := RemoveFirst(old(onward)[active], old(record)[|old(record)| - 1])]
    {
      var last := record[|record| - 1];
      record := record[..|record| - 1];
      onward := onward[active := RemoveFirst(onward[active], last)];
    }

    /** station.getOnwardLegs().add(leg). */
    method AddOnwardLeg(st: StationId, leg: Leg)
      requires st in onward
      modifies this`onward
      ensures onward == old(onward)[st := old(onward)[st] + [leg]]
    {
      onward := onward[st := onward[st] + [leg]];
    }

    /** station.getOnwardLegs().remove(leg). */
    method RemoveOnwardLeg(st: StationId, leg: Leg)
      requires st in onward
      modifies this`onward
      ensures onward == old(onward)[st := RemoveFirst(old(onward)[st], leg)]
    {
      onward := onward[st := RemoveFirst(onward[st], leg)];
    }

    /** station.setName(name). */
    method SetName(st: StationId, name: string)
      modifies this`names
      ensures names == old(names)[st := name]
    {
      names := names[st := name];
    }

    /** station.setExtendedElevationDirection(direction). */
    method SetDirection(st: StationId, direction: Direction)
      modifies this`directions
      ensures directions == old(directions)[st := direction]
    {
      directions := directions[st := direction];
    }

    /** station.setComment(comment). */
    method SetComment(st: StationId, comment: string)
      modifies this`comments
      ensures comments == old(comments)[st := comment]
    {
      comments := comments[st := comment];
    }

    method SetTrip(trip': Trip)
      modifies this`trip
      ensures trip == Some(trip')
    {
      trip := Some(trip');
    }

    method SetActiveStation(st: StationId)
      modifies this`active
      ensures active == st
      ensures State() == old(State()).(active := st)
    {
      active := st;
    }

    /** survey.setOrigin(station). */
    method SetOrigin(st: StationId)
      modifies this`origin
      ensures origin == st
    {
      origin := st;
    }

    method SetSaved(saved': bool)
      modifies this`saved
      ensures saved == saved'
    {
      saved := saved';
    }
  }
}
