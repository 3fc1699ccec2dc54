/**
 * Import of a PocketTopo .top file: the header, the trip, shot and
 * reference records, and the batch reconciler that turns shots stored in
 * recording order into the survey tree.
 *
 * The reconciler makes passes over the shots until a pass changes nothing.
 * Within a pass each shot not yet processed is a splay, a foresight to a new
 * station, a backsight from a new station, a loop closure, or is deferred
 * until its stations exist. One pass is `PassFrom`, the whole reconciliation
 * `Build`; the methods that do the work on the survey object are proved to
 * reach the same survey.
 */
module PocketTopoImporter {
  import opened Wrappers
  import opened Text
  import opened Legs
  import opened Averaging
  import opened SurveyModel
  import opened PocketTopoFile

  datatype TripData = TripData(date: Date, comment: string, declination: real)

  /** One shot as stored: a missing "to" makes it a splay; a missing "from" is a shot with no start. */
  datatype ShotData = ShotData(
    from: Option<string>,
    to: Option<string>,
    distance: real,
    azimuth: real,
    inclination: real,
    flipped: bool,
    tripIndex: int,
    comment: Option<string>)

  datatype ReferenceData = ReferenceData(station: Option<string>, east: int, north: int, altitude: int, comment: string)

  /** The reader's result and position agree with the decoder where it succeeds, and it fails with the decoder's message where that fails. */
  predicate Yields<T(==)>(r: Result<T>, pos: nat, expected: Result<Read<T>>)
  {
    match expected
    case Ok(d) => r == Ok(d.value) && pos == d.next
    case Err(e) => r == Err(e)
  }

  // ---- header --------------------------------------------------------------

  function HeaderMessage(t: Byte, o: Byte, p: Byte, version: Byte): string
  {
    "Not a valid PocketTopo file (expected header 'Top\\3', got '" + [t as char, o as char, p as char] + "'\\" +
      NatToString(version) + ")"
  }

  /** The four bytes 'T', 'o', 'p', 3. */
  function HeaderAt(data: seq<Byte>, pos: nat): Result<Read<()>>
  {
    match BytesAt(data, pos, 4)
    case Err(e) => Err(e)
    case Ok(bs) => HeaderCheck(bs.value, bs.next)
  }

  function HeaderCheck(bs: seq<Byte>, next: nat): Result<Read<()>>
    requires |bs| == 4
  {
    if bs == ['T' as int, 'o' as int, 'p' as int, 3] then Ok(Read((), next))
    else Err(HeaderMessage(bs[0], bs[1], bs[2], bs[3]))
  }

  /** Exactly the files that begin 'T', 'o', 'p', 3 pass the header check, which reads four bytes. */
  lemma HeaderAccepts(data: seq<Byte>)
    ensures var r := HeaderAt(data, 0);
      r.Ok? <==> 4 <= |data| && data[..4] == ['T' as int, 'o' as int, 'p' as int, 3]
    ensures HeaderAt(data, 0).Ok? ==> HeaderAt(data, 0).value.next == 4
  {
  }

  /** readAndVerifyHeader. */
  method ReadAndVerifyHeader(stream: ByteStream) returns (r: Result<()>)
    requires stream.Valid()
    modifies stream`pos
    ensures stream.Valid() && Yields(r, stream.pos, HeaderAt(stream.data, old(stream.pos)))
  {
    var bs :- ReadFourBytes(stream);
    if bs[0] != 'T' as int || bs[1] != 'o' as int || bs[2] != 'p' as int || bs[3] != 3 {
      return Err(HeaderMessage(bs[0], bs[1], bs[2], bs[3]));
    }
    return Ok(());
  }

  /** Four readByte calls in a row. */
  method ReadFourBytes(stream: ByteStream) returns (r: Result<seq<Byte>>)
    requires stream.Valid()
    modifies stream`pos
    ensures stream.Valid() && Delivers(r, stream.pos, BytesAt(stream.data, old(stream.pos), 4), |stream.data|)
  {
    ghost var p0 := stream.pos;
    var b0 :- ReadByte(stream);
    var b1 :- ReadByte(stream);
    var b2 :- ReadByte(stream);
    var b3 :- ReadByte(stream);
    assert stream.data[p0..stream.pos] == [b0, b1, b2, b3];
    return Ok([b0, b1, b2, b3]);
  }

  // ---- records -------------------------------------------------------------

  /** A trip: its date in ticks, its comment, and the declination as an angle. */
  function TripAt(data: seq<Byte>, pos: nat, utf8: Utf8): Result<Read<TripData>>
  {
    var ticks :- Int64At(data, pos);
    var comment :- StringAt(data, ticks.next, utf8);
    var declination :- Int16At(data, comment.next);
    Ok(Read(TripData(TicksToDate(ticks.value), comment.value, AzimuthToDegrees(declination.value)), declination.next))
  }

  /** A shot: from, to, distance, azimuth, inclination, flags, roll (unused), trip, and a comment when flag bit 2 is set. */
  function ShotAt(data: seq<Byte>, pos: nat, utf8: Utf8): Result<Read<ShotData>>
  {
    var from :- IdAt(data, pos);
    var to :- IdAt(data, from.next);
    var distance :- Int32At(data, to.next);
    var azimuth :- Int16At(data, distance.next);
    var inclination :- Int16At(data, azimuth.next);
    var flags :- ByteAt(data, inclination.next);
    var roll :- ByteAt(data, flags.next);
    var trip :- Int16At(data, roll.next);
    var shot := ShotData(from.value, to.value, DistanceToMetres(distance.value), AzimuthToDegrees(azimuth.value),
      InclinationToDegrees(inclination.value), flags.value % 2 == 1, trip.value, None);
    if (flags.value / 2) % 2 == 1 then
      var comment :- StringAt(data, trip.next, utf8);
      Ok(Read(shot.(comment := Some(comment.value)), comment.next))
    else
      Ok(Read(shot, trip.next))
  }

  /** A reference: station, east, north, altitude and comment. */
  function ReferenceAt(data: seq<Byte>, pos: nat, utf8: Utf8): Result<Read<ReferenceData>>
  {
    var station :- IdAt(data, pos);
    var east :- Int64At(data, station.next);
    var north :- Int64At(data, east.next);
    var altitude :- Int32At(data, north.next);
    var comment :- StringAt(data, altitude.next, utf8);
    Ok(Read(ReferenceData(station.value, east.value, north.value, altitude.value, comment.value), comment.next))
  }

  method ReadTrip(stream: ByteStream, utf8: Utf8) returns (r: Result<TripData>)
    requires stream.Valid()
    modifies stream`pos
    ensures stream.Valid() && Delivers(r, stream.pos, TripAt(stream.data, old(stream.pos), utf8), |stream.data|)
  {
    var ticks :- ReadInt64(stream);
    var comment :- ReadString(stream, utf8);
    var declination :- ReadInt16(stream);
    return Ok(TripData(TicksToDate(ticks), comment, AzimuthToDegrees(declination)));
  }

  method ReadShot(stream: ByteStream, utf8: Utf8) returns (r: Result<ShotData>)
    requires stream.Valid()
    modifies stream`pos
    ensures stream.Valid() && Delivers(r, stream.pos, ShotAt(stream.data, old(stream.pos), utf8), |stream.data|)
  {
    var from :- ReadId(stream);
    var to :- ReadId(stream);
    var distance :- ReadInt32(stream);
    var azimuth :- ReadInt16(stream);
    var inclination :- ReadInt16(stream);
    var flags :- ReadByte(stream);
    var roll :- ReadByte(stream);
    var trip :- ReadInt16(stream);
    var shot := ShotData(from, to, DistanceToMetres(distance), AzimuthToDegrees(azimuth),
      InclinationToDegrees(inclination), flags % 2 == 1, trip, None);
    if (flags / 2) % 2 == 1 {
      var comment :- ReadString(stream, utf8);
      shot := shot.(comment := Some(comment));
    }
    return Ok(shot);
  }

  method ReadReference(stream: ByteStream, utf8: Utf8) returns (r: Result<ReferenceData>)
    requires stream.Valid()
    modifies stream`pos
    ensures stream.Valid() && Delivers(r, stream.pos, ReferenceAt(stream.data, old(stream.pos), utf8), |stream.data|)
  {
    var station :- ReadId(stream);
    var east :- ReadInt64(stream);
    var north :- ReadInt64(stream);
    var altitude :- ReadInt32(stream);
    var comment :- ReadString(stream, utf8);
    return Ok(ReferenceData(station, east, north, altitude, comment));
  }

  // ---- record lists ----------------------------------------------------------

  /** new ArrayList<>(count) refuses a negative capacity. */
  function IllegalCapacity(count: int): string
    requires count < 0
  {
    "Illegal Capacity: -" + NatToString(-count)
  }

  /** count more trips after acc. */
  function TripsFrom(data: seq<Byte>, pos: nat, count: nat, acc: seq<TripData>, utf8: Utf8): (r: Result<Read<seq<TripData>>>)
    ensures r.Ok? ==> |r.value.value| == |acc| + count
    decreases count
  {
    if count == 0 then Ok(Read(acc, pos))
    else
      var trip :- TripAt(data, pos, utf8);
      TripsFrom(data, trip.next, count - 1, acc + [trip.value], utf8)
  }

  lemma TripsFromStep(data: seq<Byte>, pos: nat, count: nat, acc: seq<TripData>, utf8: Utf8)
    requires count > 0
    ensures var item := TripAt(data, pos, utf8);
      TripsFrom(data, pos, count, acc, utf8) ==
        if item.Ok? then TripsFrom(data, item.value.next, count - 1, acc + [item.value.value], utf8) else Err(item.error)
  {
  }

  function ShotsFrom(data: seq<Byte>, pos: nat, count: nat, acc: seq<ShotData>, utf8: Utf8): (r: Result<Read<seq<ShotData>>>)
    ensures r.Ok? ==> |r.value.value| == |acc| + count
    decreases count
  {
    if count == 0 then Ok(Read(acc, pos))
    else
      var shot :- ShotAt(data, pos, utf8);
      ShotsFrom(data, shot.next, count - 1, acc + [shot.value], utf8)
  }

  lemma ShotsFromStep(data: seq<Byte>, pos: nat, count: nat, acc: seq<ShotData>, utf8: Utf8)
    requires count > 0
    ensures var item := ShotAt(data, pos, utf8);
      ShotsFrom(data, pos, count, acc, utf8) ==
        if item.Ok? then ShotsFrom(data, item.value.next, count - 1, acc + [item.value.value], utf8) else Err(item.error)
  {
  }

  function ReferencesFrom(data: seq<Byte>, pos: nat, count: nat, acc: seq<ReferenceData>, utf8: Utf8): (r: Result<Read<seq<ReferenceData>>>)
    ensures r.Ok? ==> |r.value.value| == |acc| + count
    decreases count
  {
    if count == 0 then Ok(Read(acc, pos))
    else
      var reference :- ReferenceAt(data, pos, utf8);
      ReferencesFrom(data, reference.next, count - 1, acc + [reference.value], utf8)
  }

  lemma ReferencesFromStep(data: seq<Byte>, pos: nat, count: nat, acc: seq<ReferenceData>, utf8: Utf8)
    requires count > 0
    ensures var item := ReferenceAt(data, pos, utf8);
      ReferencesFrom(data, pos, count, acc, utf8) ==
        if item.Ok? then ReferencesFrom(data, item.value.next, count - 1, acc + [item.value.value], utf8) else Err(item.error)
  {
  }

  /** readTrips: a count, then that many trips. */
  function TripListAt(data: seq<Byte>, pos: nat, utf8: Utf8): Result<Read<seq<TripData>>>
  {
    var count :- Int32At(data, pos);
    if count.value < 0 then Err(IllegalCapacity(count.value)) else TripsFrom(data, count.next, count.value, [], utf8)
  }

  function ShotListAt(data: seq<Byte>, pos: nat, utf8: Utf8): Result<Read<seq<ShotData>>>
  {
    var count :- Int32At(data, pos);
    if count.value < 0 then Err(IllegalCapacity(count.value)) else ShotsFrom(data, count.next, count.value, [], utf8)
  }

  function ReferenceListAt(data: seq<Byte>, pos: nat, utf8: Utf8): Result<Read<seq<ReferenceData>>>
  {
    var count :- Int32At(data, pos);
    if count.value < 0 then Err(IllegalCapacity(count.value)) else ReferencesFrom(data, count.next, count.value, [], utf8)
  }

  /** A list read whole holds as many records as its count says. */
  lemma ListCounts(data: seq<Byte>, pos: nat, utf8: Utf8)
    ensures var r := ShotListAt(data, pos, utf8);
      r.Ok? ==> Int32At(data, pos).Ok? && |r.value.value| == Int32At(data, pos).value.value
    ensures var r := TripListAt(data, pos, utf8);
      r.Ok? ==> Int32At(data, pos).Ok? && |r.value.value| == Int32At(data, pos).value.value
    ensures var r := ReferenceListAt(data, pos, utf8);
      r.Ok? ==> Int32At(data, pos).Ok? && |r.value.value| == Int32At(data, pos).value.value
  {
  }

  method ReadTrips(stream: ByteStream, utf8: Utf8) returns (r: Result<seq<TripData>>)
    requires stream.Valid()
    modifies stream`pos
    ensures stream.Valid() && Yields(r, stream.pos, TripListAt(stream.data, old(stream.pos), utf8))
  {
    var count :- ReadInt32(stream);
    if count < 0 {
      return Err(IllegalCapacity(count));
    }
    r := ReadTripRun(stream, count, utf8);
  }

  /** The loop of readTrips: count records, each appended in turn. */
  method ReadTripRun(stream: ByteStream, count: nat, utf8: Utf8) returns (r: Result<seq<TripData>>)
    requires stream.Valid()
    modifies stream`pos
    ensures stream.Valid() && Yields(r, stream.pos, TripsFrom(stream.data, old(stream.pos), count, [], utf8))
  {
    ghost var start := stream.pos;
    var trips := [];
    for i := 0 to count
      invariant stream.Valid()
      invariant TripsFrom(stream.data, start, count, [], utf8) == TripsFrom(stream.data, stream.pos, count - i, trips, utf8)
    {
      ghost var before := stream.pos;
      var trip := ReadTrip(stream, utf8);
      TripsFromStep(stream.data, before, count - i, trips, utf8);
      if trip.Err? {
        return Err(trip.error);
      }
      trips := trips + [trip.value];
    }
    return Ok(trips);
  }

  method ReadShots(stream: ByteStream, utf8: Utf8) returns (r: Result<seq<ShotData>>)
    requires stream.Valid()
    modifies stream`pos
    ensures stream.Valid() && Yields(r, stream.pos, ShotListAt(stream.data, old(stream.pos), utf8))
  {
    var count :- ReadInt32(stream);
    if count < 0 {
      return Err(IllegalCapacity(count));
    }
    r := ReadShotRun(stream, count, utf8);
  }

  /** The loop of readShots: count records, each appended in turn. */
  method ReadShotRun(stream: ByteStream, count: nat, utf8: Utf8) returns (r: Result<seq<ShotData>>)
    requires stream.Valid()
    modifies stream`pos
    ensures stream.Valid() && Yields(r, stream.pos, ShotsFrom(stream.data, old(stream.pos), count, [], utf8))
  {
    ghost var start := stream.pos;
    var shots := [];
    for i := 0 to count
      invariant stream.Valid()
      invariant ShotsFrom(stream.data, start, count, [], utf8) == ShotsFrom(stream.data, stream.pos, count - i, shots, utf8)
    {
      ghost var before := stream.pos;
      var shot := ReadShot(stream, utf8);
      ShotsFromStep(stream.data, before, count - i, shots, utf8);
      if shot.Err? {
        return Err(shot.error);
      }
      shots := shots + [shot.value];
    }
    return Ok(shots);
  }

  method ReadReferences(stream: ByteStream, utf8: Utf8) returns (r: Result<seq<ReferenceData>>)
    requires stream.Valid()
    modifies stream`pos
    ensures stream.Valid() && Yields(r, stream.pos, ReferenceListAt(stream.data, old(stream.pos), utf8))
  {
    var count :- ReadInt32(stream);
    if count < 0 {
      return Err(IllegalCapacity(count));
    }
    r := ReadReferenceRun(stream, count, utf8);
  }

  /** The loop of readReferences: count records, each appended in turn. */
  method ReadReferenceRun(stream: ByteStream, count: nat, utf8: Utf8) returns (r: Result<seq<ReferenceData>>)
    requires stream.Valid()
    modifies stream`pos
    ensures stream.Valid() && Yields(r, stream.pos, ReferencesFrom(stream.data, old(stream.pos), count, [], utf8))
  {
    ghost var start := stream.pos;
    var references := [];
    for i := 0 to count
      invariant stream.Valid()
      invariant ReferencesFrom(stream.data, start, count, [], utf8) == ReferencesFrom(stream.data, stream.pos, count - i, references, utf8)
    {
      ghost var before := stream.pos;
      var reference := ReadReference(stream, utf8);
      ReferencesFromStep(stream.data, before, count - i, references, utf8);
      if reference.Err? {
        return Err(reference.error);
      }
      references := references + [reference.value];
    }
    return Ok(references);
  }

  /** readMapping: origin x, origin y and scale, all discarded. */
  function MappingAt(data: seq<Byte>, pos: nat): (r: Result<Read<()>>)
    ensures r.Ok? <==> pos + 12 <= |data|
    ensures r.Ok? ==> r.value.next == pos + 12
  {
    var x :- Int32At(data, pos);
    var y :- Int32At(data, x.next);
    var scale :- Int32At(data, y.next);
    Ok(Read((), scale.next))
  }

  method ReadMapping(stream: ByteStream) returns (r: Result<()>)
    requires stream.Valid()
    modifies stream`pos
    ensures stream.Valid() && Delivers(r, stream.pos, MappingAt(stream.data, old(stream.pos)), |stream.data|)
  {
    var x :- ReadInt32(stream);
    var y :- ReadInt32(stream);
    var scale :- ReadInt32(stream);
    return Ok(());
  }

  datatype Records = Records(trips: seq<TripData>, shots: seq<ShotData>, references: seq<ReferenceData>)

  /** The part of parseSurvey before the drawings: header, trips, shots, references and the overview mapping. */
  function RecordsAt(data: seq<Byte>, utf8: Utf8): Result<Read<Records>>
  {
    var header :- HeaderAt(data, 0);
    var trips :- TripListAt(data, header.next, utf8);
    var shots :- ShotListAt(data, trips.next, utf8);
    var references :- ReferenceListAt(data, shots.next, utf8);
    var mapping :- MappingAt(data, references.next);
    Ok(Read(Records(trips.value, shots.value, references.value), mapping.next))
  }

  method ReadRecords(stream: ByteStream, utf8: Utf8) returns (r: Result<Records>)
    requires stream.Valid() && stream.pos == 0
    modifies stream`pos
    ensures stream.Valid() && Yields(r, stream.pos, RecordsAt(stream.data, utf8))
  {
    var header :- ReadAndVerifyHeader(stream);
    var trips :- ReadTrips(stream, utf8);
    var shots :- ReadShots(stream, utf8);
    var references :- ReadReferences(stream, utf8);
    var mapping :- ReadMapping(stream);
    return Ok(Records(trips, shots, references));
  }

  // ---- the reconciler: one shot --------------------------------------------

  /** new Leg(distance, azimuth, inclination) from a shot's readings. */
  function ShotLeg(shot: ShotData): Leg
  {
    Splay(0, shot.distance, shot.azimuth, shot.inclination)
  }

  /** A repeat of target: the same (from, to) pair. */
  predicate IsRepeat(shot: ShotData, target: ShotData)
  {
    shot.from == target.from && shot.to == target.to
  }

  /** The unprocessed repeats of target among the first n shots, as legs in file order. */
  function RepeatsUpTo(shots: seq<ShotData>, processed: seq<bool>, target: ShotData, n: nat): (r: seq<Leg>)
    requires n <= |shots| == |processed|
    ensures |r| <= n
  {
    if n == 0 then []
    else
      RepeatsUpTo(shots, processed, target, n - 1) +
        (if !processed[n - 1] && IsRepeat(shots[n - 1], target) then [ShotLeg(shots[n - 1])] else [])
  }

  function Repeats(shots: seq<ShotData>, processed: seq<bool>, target: ShotData): seq<Leg>
    requires |shots| == |processed|
  {
    RepeatsUpTo(shots, processed, target, |shots|)
  }

  /** The processed flags once every repeat of target is marked. */
  function MarkRepeats(shots: seq<ShotData>, processed: seq<bool>, target: ShotData): (r: seq<bool>)
    requires |shots| == |processed|
    ensures |r| == |shots|
  {
    seq(|shots|, k requires 0 <= k < |shots| => processed[k] || IsRepeat(shots[k], target))
  }

  /** The number of shots not yet processed. */
  function Unprocessed(processed: seq<bool>): (r: nat)
    ensures r <= |processed|
  {
    if processed == [] then 0
    else Unprocessed(processed[..|processed| - 1]) + (if processed[|processed| - 1] then 0 else 1)
  }

  /** A station's comment, the empty string standing for none. */
  function StationComment(comment: Option<string>): string
  {
    match comment
    case Some(c) => c
    case None => ""
  }

  function DirectionOf(flipped: bool): Direction
  {
    if flipped then Left else Right
  }

  /** The readings of the leg: the mean of several repeats, or the single shot as it is. */
  function Merged(originals: seq<Leg>): Leg
    requires |originals| > 0
  {
    if |originals| > 1 then AveragedLeg(originals) else originals[0]
  }

  /** promotedFrom: the originals when there are several, none for a single shot. */
  function Provenance(originals: seq<Leg>): seq<Leg>
  {
    if |originals| > 1 then originals else []
  }

  /** A new station, reached from st by leg, becomes the active one. */
  function Sprouted(s: SurveyState, st: StationId, name: string, shot: ShotData, leg: Leg): SurveyState
    requires st in s.onward
  {
    var t := Founded(s, name, StationComment(shot.comment), DirectionOf(shot.flipped));
    Attached(t, st, leg).(active := s.nextStation)
  }

  /** A foresight: a new station named after "to", reached from the existing "from", becomes active. */
  function Foresight(s: SurveyState, from: StationId, shot: ShotData, originals: seq<Leg>): SurveyState
    requires from in s.onward && shot.to.Some? && |originals| > 0
  {
    var m := Merged(originals);
    Sprouted(s, from, shot.to.value, shot,
      Leg(0, m.distance, m.azimuth, m.inclination, Some(s.nextStation), false, Provenance(originals), []))
  }

  /** A backsight: a new station named after "from", reached from the existing "to" by the shot turned round. */
  function Backsight(s: SurveyState, to: StationId, shot: ShotData, originals: seq<Leg>): SurveyState
    requires to in s.onward && shot.from.Some? && |originals| > 0
  {
    var m := Merged(originals);
    Sprouted(s, to, shot.from.value, shot,
      Leg(0, m.distance, AdjustAngle(m.azimuth, 180.0), -m.inclination, Some(s.nextStation), true,
        Provenance(originals), []))
  }

  /** The survey, the processed flags, and whether the pass has made progress. */
  datatype Pass = Pass(s: SurveyState, processed: seq<bool>, progress: bool)

  lemma FoundInOnward(s: SurveyState, name: string)
    requires s.StationByName(name).Some?
    ensures s.StationByName(name).value in s.onward
  {
    var st := s.StationByName(name).value;
    var k :| 0 <= k < |s.Stations()| && s.Stations()[k] == st;
  }

  /** An unprocessed shot is a repeat of itself: it is among the legs collected and gets marked. */
  lemma RepeatsIncludeSelf(shots: seq<ShotData>, processed: seq<bool>, i: nat)
    requires |shots| == |processed| && i < |shots| && !processed[i]
    ensures |Repeats(shots, processed, shots[i])| > 0
    ensures MarkRepeats(shots, processed, shots[i])[i]
  {
    RepeatsPresent(shots, processed, shots[i], |shots|, i);
  }

  lemma {:induction false} RepeatsPresent(shots: seq<ShotData>, processed: seq<bool>, target: ShotData, n: nat, i: nat)
    requires n <= |shots| == |processed| && i < n && !processed[i] && IsRepeat(shots[i], target)
    ensures |RepeatsUpTo(shots, processed, target, n)| > 0
  {
    if i < n - 1 {
      RepeatsPresent(shots, processed, target, n - 1, i);
    }
  }

  /** One shot of a pass, as the body of the pass loop treats it. */
  function ShotStep(p: Pass, shots: seq<ShotData>, i: nat): (q: Pass)
    requires |p.processed| == |shots| && i < |shots|
    ensures |q.processed| == |shots|
  {
    if p.processed[i] then p
    else
      var shot := shots[i];
      if shot.from.None? then p.(processed := p.processed[i := true], progress := true)
      else
        var from := p.s.StationByName(shot.from.value);
        var to := if shot.to.Some? then p.s.StationByName(shot.to.value) else None;
        if shot.to.None? then
          if from.None? then p
          else
            FoundInOnward(p.s, shot.from.value);
            Pass(Attached(p.s, from.value, ShotLeg(shot)), p.processed[i := true], true)
        else if from.Some? && to.None? then
          RepeatsIncludeSelf(shots, p.processed, i);
          FoundInOnward(p.s, shot.from.value);
          Pass(Foresight(p.s, from.value, shot, Repeats(shots, p.processed, shot)), MarkRepeats(shots, p.processed, shot), true)
        else if from.None? && to.Some? then
          RepeatsIncludeSelf(shots, p.processed, i);
          FoundInOnward(p.s, shot.to.value);
          Pass(Backsight(p.s, to.value, shot, Repeats(shots, p.processed, shot)), MarkRepeats(shots, p.processed, shot), true)
        else if from.Some? then p.(processed := p.processed[i := true], progress := true)
        else p
  }

  // ---- the reconciler: passes ----------------------------------------------

  /** The rest of a pass, from shot i on. */
  function PassFrom(p: Pass, shots: seq<ShotData>, i: nat): (q: Pass)
    requires |p.processed| == |shots| && i <= |shots|
    ensures |q.processed| == |shots|
    decreases |shots| - i
  {
    if i == |shots| then p else PassFrom(ShotStep(p, shots, i), shots, i + 1)
  }

  /** Passes until one makes no progress: the survey and flags after that pass. */
  function Build(s: SurveyState, processed: seq<bool>, shots: seq<ShotData>): (q: Pass)
    requires |processed| == |shots|
    ensures |q.processed| == |shots|
    decreases Unprocessed(processed)
  {
    var q := PassFrom(Pass(s, processed, false), shots, 0);
    if q.progress then
      PassProgress(Pass(s, processed, false), shots, 0);
      Build(q.s, q.processed, shots)
    else q
  }

  /** Flags b keep every shot a marks as processed. */
  predicate Covers(a: seq<bool>, b: seq<bool>)
  {
    |a| == |b| && forall k :: 0 <= k < |a| && a[k] ==> b[k]
  }

  lemma {:induction false} CountCovers(a: seq<bool>, b: seq<bool>)
    requires Covers(a, b)
    ensures Unprocessed(b) <= Unprocessed(a)
  {
    if a != [] {
      CountCovers(a[..|a| - 1], b[..|b| - 1]);
    }
  }

  lemma {:induction false} CountCoversStrictly(a: seq<bool>, b: seq<bool>, i: nat)
    requires Covers(a, b) && i < |a| && !a[i] && b[i]
    ensures Unprocessed(b) < Unprocessed(a)
  {
    if i < |a| - 1 {
      CountCoversStrictly(a[..|a| - 1], b[..|b| - 1], i);
    } else {
      CountCovers(a[..|a| - 1], b[..|b| - 1]);
    }
  }

  /** A shot never unmarks a shot, and when it makes progress it has marked itself. */
  lemma StepMarks(p: Pass, shots: seq<ShotData>, i: nat)
    requires |p.processed| == |shots| && i < |shots|
    ensures var q := ShotStep(p, shots, i);
      Covers(p.processed, q.processed) && (p.progress ==> q.progress) &&
      (q.progress && !p.progress ==> !p.processed[i] && q.processed[i])
  {
    if !p.processed[i] && shots[i].from.Some? && shots[i].to.Some? {
      RepeatsIncludeSelf(shots, p.processed, i);
    }
  }

  /** Every pass that reports progress has marked at least one more shot: the measure of Build. */
  lemma {:induction false} PassProgress(p: Pass, shots: seq<ShotData>, i: nat)
    requires |p.processed| == |shots| && i <= |shots|
    ensures var q := PassFrom(p, shots, i);
      Covers(p.processed, q.processed) && Unprocessed(q.processed) <= Unprocessed(p.processed) &&
      (q.progress && !p.progress ==> Unprocessed(q.processed) < Unprocessed(p.processed))
    decreases |shots| - i
  {
    if i < |shots| {
      var m := ShotStep(p, shots, i);
      StepMarks(p, shots, i);
      PassProgress(m, shots, i + 1);
      CountCovers(p.processed, m.processed);
      if m.progress && !p.progress {
        CountCoversStrictly(p.processed, m.processed, i);
      }
    } else {
      CountCovers(p.processed, p.processed);
    }
  }

  /** A shot no pass can place in this survey: its "from" is not there, nor its "to" when it has one. */
  predicate Unplaceable(s: SurveyState, shot: ShotData)
  {
    shot.from.Some? && s.StationByName(shot.from.value).None? &&
    (shot.to.Some? ==> s.StationByName(shot.to.value).None?)
  }

  /** A shot that makes no progress changes nothing, and it was processed already or cannot be placed. */
  lemma StepWithoutProgress(p: Pass, shots: seq<ShotData>, i: nat)
    requires |p.processed| == |shots| && i < |shots| && !p.progress
    requires !ShotStep(p, shots, i).progress
    ensures ShotStep(p, shots, i) == p
    ensures !p.processed[i] ==> Unplaceable(p.s, shots[i])
  {
  }

  /** A pass without progress leaves the survey and the flags as they were, and every shot left is unplaceable. */
  lemma {:induction false} PassWithoutProgress(p: Pass, shots: seq<ShotData>, i: nat)
    requires |p.processed| == |shots| && i <= |shots| && !p.progress
    requires !PassFrom(p, shots, i).progress
    ensures PassFrom(p, shots, i) == p
    ensures forall k :: i <= k < |shots| && !p.processed[k] ==> Unplaceable(p.s, shots[k])
    decreases |shots| - i
  {
    if i < |shots| {
      var m := ShotStep(p, shots, i);
      StepMarks(p, shots, i);
      PassKeepsProgress(m, shots, i + 1);
      StepWithoutProgress(p, shots, i);
      PassWithoutProgress(p, shots, i + 1);
    }
  }

  /** Progress once made in a pass stays reported. */
  lemma {:induction false} PassKeepsProgress(p: Pass, shots: seq<ShotData>, i: nat)
    requires |p.processed| == |shots| && i <= |shots|
    ensures p.progress ==> PassFrom(p, shots, i).progress
    decreases |shots| - i
  {
    if i < |shots| {
      StepMarks(p, shots, i);
      PassKeepsProgress(ShotStep(p, shots, i), shots, i + 1);
    }
  }

  /** The reconciler stops only when every shot left unprocessed can be placed nowhere: those are dropped. */
  lemma {:induction false} BuildDropsOnlyUnplaceable(s: SurveyState, processed: seq<bool>, shots: seq<ShotData>)
    requires |processed| == |shots|
    ensures var q := Build(s, processed, shots);
      forall k :: 0 <= k < |shots| && !q.processed[k] ==> Unplaceable(q.s, shots[k])
    ensures Covers(processed, Build(s, processed, shots).processed)
    decreases Unprocessed(processed)
  {
    var q := PassFrom(Pass(s, processed, false), shots, 0);
    PassProgress(Pass(s, processed, false), shots, 0);
    if q.progress {
      BuildDropsOnlyUnplaceable(q.s, q.processed, shots);
    } else {
      PassWithoutProgress(Pass(s, processed, false), shots, 0);
    }
  }

  // ---- the reconciler: what each kind of shot does ---------------------------

  /** A shot without a start is marked processed and changes nothing else. */
  lemma NullFromSkipped(p: Pass, shots: seq<ShotData>, i: nat)
    requires |p.processed| == |shots| && i < |shots| && !p.processed[i] && shots[i].from.None?
    ensures ShotStep(p, shots, i) == Pass(p.s, p.processed[i := true], true)
  {
  }

  /** A splay waits until its "from" station exists, then becomes a plain leg of it and the newest record entry. */
  lemma SplayDeferredUntilFromExists(p: Pass, shots: seq<ShotData>, i: nat)
    requires |p.processed| == |shots| && i < |shots| && !p.processed[i]
    requires shots[i].from.Some? && shots[i].to.None?
    ensures var q := ShotStep(p, shots, i);
      var from := p.s.StationByName(shots[i].from.value);
      var leg := Splay(p.s.nextLeg, shots[i].distance, shots[i].azimuth, shots[i].inclination);
      (from.None? ==> q == p) &&
      (from.Some? ==>
         q.processed == p.processed[i := true] && q.progress &&
         q.s.onward == p.s.onward[from.value := p.s.onward[from.value] + [leg]] &&
         q.s.record == p.s.record + [leg] &&
         q.s.names == p.s.names && q.s.active == p.s.active && q.s.nextStation == p.s.nextStation)
  {
  }

  /** Both ends already there: a loop closure, marked processed and otherwise ignored. Neither end there: deferred. */
  lemma ClosureSkippedOrphanDeferred(p: Pass, shots: seq<ShotData>, i: nat)
    requires |p.processed| == |shots| && i < |shots| && !p.processed[i]
    requires shots[i].from.Some? && shots[i].to.Some?
    ensures var q := ShotStep(p, shots, i);
      var from := p.s.StationByName(shots[i].from.value);
      var to := p.s.StationByName(shots[i].to.value);
      (from.Some? && to.Some? ==> q == Pass(p.s, p.processed[i := true], true)) &&
      (from.None? && to.None? ==> q == p)
  {
  }

  /** The legs collected for a shot are as many as the shots newly marked. */
  lemma RepeatsCount(shots: seq<ShotData>, processed: seq<bool>, target: ShotData)
    requires |shots| == |processed|
    ensures Unprocessed(MarkRepeats(shots, processed, target)) + |Repeats(shots, processed, target)| == Unprocessed(processed)
  {
    RepeatsCountUpTo(shots, processed, target, |shots|);
    assert MarkRepeats(shots, processed, target)[..|shots|] == MarkRepeats(shots, processed, target);
    assert processed[..|shots|] == processed;
  }

  lemma {:induction false} RepeatsCountUpTo(shots: seq<ShotData>, processed: seq<bool>, target: ShotData, n: nat)
    requires n <= |shots| == |processed|
    ensures Unprocessed(MarkRepeats(shots, processed, target)[..n]) + |RepeatsUpTo(shots, processed, target, n)| ==
      Unprocessed(processed[..n])
  {
    if n > 0 {
      var marked := MarkRepeats(shots, processed, target);
      RepeatsCountUpTo(shots, processed, target, n - 1);
      assert marked[..n][..n - 1] == marked[..n - 1];
      assert processed[..n][..n - 1] == processed[..n - 1];
    }
  }

  /** A single collected leg is the shot itself, read as a splay. */
  lemma SingleRepeatIsSelf(shots: seq<ShotData>, processed: seq<bool>, i: nat)
    requires |shots| == |processed| && i < |shots| && !processed[i]
    requires |Repeats(shots, processed, shots[i])| == 1
    ensures Repeats(shots, processed, shots[i]) == [ShotLeg(shots[i])]
  {
    SingleRepeatUpTo(shots, processed, shots[i], |shots|, i);
  }

  lemma {:induction false} SingleRepeatUpTo(shots: seq<ShotData>, processed: seq<bool>, target: ShotData, n: nat, i: nat)
    requires n <= |shots| == |processed| && i < n && !processed[i] && shots[i] == target
    requires |RepeatsUpTo(shots, processed, target, n)| == 1
    ensures RepeatsUpTo(shots, processed, target, n) == [ShotLeg(target)]
  {
    if i < n - 1 {
      RepeatsPresent(shots, processed, target, n - 1, i);
      SingleRepeatUpTo(shots, processed, target, n - 1, i);
    }
  }

  /**
   * A foresight ("from" there, "to" new) collects every unprocessed repeat, marks them, and hangs a leg to a new
   * station named "to" off "from": the averaged readings with the repeats as promotedFrom when there are several,
   * the shot's own readings and no provenance when it stands alone. The new station becomes active.
   */
  lemma ForesightCreatesStation(p: Pass, shots: seq<ShotData>, i: nat)
    requires |p.processed| == |shots| && i < |shots| && !p.processed[i]
    requires p.s.Valid() && shots[i].from.Some? && shots[i].to.Some?
    requires p.s.StationByName(shots[i].from.value).Some? && p.s.StationByName(shots[i].to.value).None?
    ensures var q := ShotStep(p, shots, i);
      var from := p.s.StationByName(shots[i].from.value).value;
      var originals := Repeats(shots, p.processed, shots[i]);
      var n := p.s.nextStation;
      var leg := q.s.record[|q.s.record| - 1];
      |originals| >= 1 && q.progress && q.processed == MarkRepeats(shots, p.processed, shots[i]) && q.processed[i] &&
      q.s.record == p.s.record + [leg] && q.s.onward == p.s.onward[n := []][from := p.s.onward[from] + [leg]] &&
      q.s.names == p.s.names[n := shots[i].to.value] && q.s.active == n && q.s.nextStation == n + 1 &&
      leg.id == p.s.nextLeg && leg.destination == Some(n) && !leg.wasShotBackwards &&
      (|originals| == 1 ==>
         leg.promotedFrom == [] &&
         (leg.distance, leg.azimuth, leg.inclination) == (shots[i].distance, shots[i].azimuth, shots[i].inclination)) &&
      (|originals| > 1 ==>
         leg.promotedFrom == originals &&
         (leg.distance, leg.azimuth, leg.inclination) ==
         (AveragedLeg(originals).distance, AveragedLeg(originals).azimuth, AveragedLeg(originals).inclination))
  {
    RepeatsIncludeSelf(shots, p.processed, i);
    FoundInOnward(p.s, shots[i].from.value);
    if |Repeats(shots, p.processed, shots[i])| == 1 {
      SingleRepeatIsSelf(shots, p.processed, i);
    }
  }

  /**
   * A backsight ("to" there, "from" new) collects and averages the same way, then hangs the leg off "to" turned
   * round: azimuth plus 180 degrees, inclination negated, marked as shot backwards, to a new active station named "from".
   */
  lemma BacksightCreatesStation(p: Pass, shots: seq<ShotData>, i: nat)
    requires |p.processed| == |shots| && i < |shots| && !p.processed[i]
    requires p.s.Valid() && shots[i].from.Some? && shots[i].to.Some?
    requires p.s.StationByName(shots[i].from.value).None? && p.s.StationByName(shots[i].to.value).Some?
    ensures var q := ShotStep(p, shots, i);
      var to := p.s.StationByName(shots[i].to.value).value;
      var originals := Repeats(shots, p.processed, shots[i]);
      var n := p.s.nextStation;
      var leg := q.s.record[|q.s.record| - 1];
      |originals| >= 1 && q.progress && q.processed == MarkRepeats(shots, p.processed, shots[i]) && q.processed[i] &&
      q.s.record == p.s.record + [leg] && q.s.onward == p.s.onward[n := []][to := p.s.onward[to] + [leg]] &&
      q.s.names == p.s.names[n := shots[i].from.value] && q.s.active == n && q.s.nextStation == n + 1 &&
      leg.id == p.s.nextLeg && leg.destination == Some(n) && leg.wasShotBackwards &&
      leg.promotedFrom == Provenance(originals) &&
      leg.azimuth == AdjustAngle(Merged(originals).azimuth, 180.0) && leg.inclination == -Merged(originals).inclination &&
      (|originals| == 1 ==>
         (leg.distance, leg.azimuth, leg.inclination) ==
         (shots[i].distance, AdjustAngle(shots[i].azimuth, 180.0), -shots[i].inclination))
  {
    RepeatsIncludeSelf(shots, p.processed, i);
    FoundInOnward(p.s, shots[i].to.value);
    if |Repeats(shots, p.processed, shots[i])| == 1 {
      SingleRepeatIsSelf(shots, p.processed, i);
    }
  }

  // ---- the reconciler keeps the survey well formed ---------------------------

  /** t extends s: the same origin; every station of s keeps its name, comment, direction and legs, which may only gain more; the record only grows. */
  ghost predicate Grows(s: SurveyState, t: SurveyState)
  {
    t.origin == s.origin && s.record <= t.record &&
    (forall st :: st in s.onward ==> st in t.onward && s.onward[st] <= t.onward[st]) &&
    (forall st :: st in s.names ==> st in t.names && t.names[st] == s.names[st]) &&
    (forall st :: st in s.comments ==> st in t.comments && t.comments[st] == s.comments[st]) &&
    (forall st :: st in s.directions ==> st in t.directions && t.directions[st] == s.directions[st])
  }

  lemma GrowsTransitive(s: SurveyState, t: SurveyState, u: SurveyState)
    requires Grows(s, t) && Grows(t, u)
    ensures Grows(s, u)
  {
    forall st | st in s.onward ensures s.onward[st] <= u.onward[st] {
      assert s.onward[st] <= t.onward[st] <= u.onward[st];
    }
  }

  lemma FoundedGrows(s: SurveyState, name: string, comment: string, direction: Direction)
    requires s.Valid()
    ensures Founded(s, name, comment, direction).Valid() && Grows(s, Founded(s, name, comment, direction))
  {
    FoundedValid(s, name, comment, direction);
    FoundedExtends(s, name, comment, direction);
  }

  lemma FoundedValid(s: SurveyState, name: string, comment: string, direction: Direction)
    requires s.Valid()
    ensures Founded(s, name, comment, direction).Valid()
  {
    hide Founded;
    var t := Founded(s, name, comment, direction);
    var n := s.nextStation;
    forall st | st in t.onward ensures st < t.nextStation && IdsBelow(t.onward[st], t.nextLeg) {
      if st == n {
        assert IdsBelow([], s.nextLeg);
      }
    }
  }

  lemma FoundedExtends(s: SurveyState, name: string, comment: string, direction: Direction)
    requires s.Valid()
    ensures Grows(s, Founded(s, name, comment, direction))
  {
    hide Founded, IdsBelow;
    var t := Founded(s, name, comment, direction);
    forall st | st in s.onward ensures st in t.onward && s.onward[st] <= t.onward[st] {
      assert st != s.nextStation;
    }
  }

  lemma AttachedGrows(s: SurveyState, st: StationId, leg: Leg)
    requires s.Valid() && st in s.onward
    ensures Attached(s, st, leg).Valid() && Grows(s, Attached(s, st, leg))
  {
    var placed := leg.(id := s.nextLeg);
    IdsBelowOf(s.onward[st] + [placed], s.onward[st], placed, s.nextLeg + 1);
    IdsBelowOf(s.record + [placed], s.record, placed, s.nextLeg + 1);
    s.ValidWithLegs(st, s.onward[st] + [placed], s.record + [placed], s.nextLeg + 1);
  }

  lemma GrowsReflexive(s: SurveyState)
    ensures Grows(s, s)
  {
  }

  lemma ForesightGrows(s: SurveyState, from: StationId, shot: ShotData, originals: seq<Leg>)
    requires s.Valid() && from in s.onward && shot.to.Some? && |originals| > 0
    ensures Foresight(s, from, shot, originals).Valid() && Grows(s, Foresight(s, from, shot, originals))
  {
    var m := Merged(originals);
    NewStationGrows(s, from, shot.to.value, shot,
      Leg(0, m.distance, m.azimuth, m.inclination, Some(s.nextStation), false, Provenance(originals), []));
  }

  lemma BacksightGrows(s: SurveyState, to: StationId, shot: ShotData, originals: seq<Leg>)
    requires s.Valid() && to in s.onward && shot.from.Some? && |originals| > 0
    ensures Backsight(s, to, shot, originals).Valid() && Grows(s, Backsight(s, to, shot, originals))
  {
    var m := Merged(originals);
    var leg := Leg(0, m.distance, AdjustAngle(m.azimuth, 180.0), -m.inclination, Some(s.nextStation), true,
      Provenance(originals), []);
    assert Backsight(s, to, shot, originals) == Sprouted(s, to, shot.from.value, shot, leg);
    NewStationGrows(s, to, shot.from.value, shot, leg);
  }

  /** Every shot keeps the survey well formed and only adds to it. */
  lemma StepGrows(p: Pass, shots: seq<ShotData>, i: nat)
    requires |p.processed| == |shots| && i < |shots| && p.s.Valid()
    ensures ShotStep(p, shots, i).s.Valid() && Grows(p.s, ShotStep(p, shots, i).s)
  {
    if p.processed[i] || shots[i].from.None? {
      GrowsReflexive(p.s);
    } else if shots[i].to.None? {
      SplayStepGrows(p, shots, i);
    } else {
      LegStepGrows(p, shots, i);
    }
  }

  lemma SplayStepGrows(p: Pass, shots: seq<ShotData>, i: nat)
    requires |p.processed| == |shots| && i < |shots| && p.s.Valid()
    requires !p.processed[i] && shots[i].from.Some? && shots[i].to.None?
    ensures ShotStep(p, shots, i).s.Valid() && Grows(p.s, ShotStep(p, shots, i).s)
  {
    var from := p.s.StationByName(shots[i].from.value);
    if from.Some? {
      FoundInOnward(p.s, shots[i].from.value);
      AttachedGrows(p.s, from.value, ShotLeg(shots[i]));
    } else {
      GrowsReflexive(p.s);
    }
  }

  lemma LegStepGrows(p: Pass, shots: seq<ShotData>, i: nat)
    requires |p.processed| == |shots| && i < |shots| && p.s.Valid()
    requires !p.processed[i] && shots[i].from.Some? && shots[i].to.Some?
    ensures ShotStep(p, shots, i).s.Valid() && Grows(p.s, ShotStep(p, shots, i).s)
  {
    var from := p.s.StationByName(shots[i].from.value);
    var to := p.s.StationByName(shots[i].to.value);
    if from.Some? && to.None? {
      ForesightStepGrows(p, shots, i);
    } else if from.None? && to.Some? {
      BacksightStepGrows(p, shots, i);
    } else {
      GrowsReflexive(p.s);
    }
  }

  lemma ForesightStepGrows(p: Pass, shots: seq<ShotData>, i: nat)
    requires |p.processed| == |shots| && i < |shots| && p.s.Valid()
    requires !p.processed[i] && shots[i].from.Some? && shots[i].to.Some?
    requires p.s.StationByName(shots[i].from.value).Some? && p.s.StationByName(shots[i].to.value).None?
    ensures ShotStep(p, shots, i).s.Valid() && Grows(p.s, ShotStep(p, shots, i).s)
  {
    var shot := shots[i];
    FoundInOnward(p.s, shot.from.value);
    RepeatsIncludeSelf(shots, p.processed, i);
    var from := p.s.StationByName(shot.from.value).value;
    assert ShotStep(p, shots, i).s == Foresight(p.s, from, shot, Repeats(shots, p.processed, shot));
    ForesightGrows(p.s, from, shot, Repeats(shots, p.processed, shot));
  }

  lemma BacksightStepGrows(p: Pass, shots: seq<ShotData>, i: nat)
    requires |p.processed| == |shots| && i < |shots| && p.s.Valid()
    requires !p.processed[i] && shots[i].from.Some? && shots[i].to.Some?
    requires p.s.StationByName(shots[i].from.value).None? && p.s.StationByName(shots[i].to.value).Some?
    ensures ShotStep(p, shots, i).s.Valid() && Grows(p.s, ShotStep(p, shots, i).s)
  {
    var shot := shots[i];
    FoundInOnward(p.s, shot.to.value);
    RepeatsIncludeSelf(shots, p.processed, i);
    var to := p.s.StationByName(shot.to.value).value;
    assert ShotStep(p, shots, i).s == Backsight(p.s, to, shot, Repeats(shots, p.processed, shot));
    BacksightGrows(p.s, to, shot, Repeats(shots, p.processed, shot));
  }

  /** A new station, a leg to it from an existing one, and the new station made active: the survey grows and stays well formed. */
  lemma NewStationGrows(s: SurveyState, st: StationId, name: string, shot: ShotData, leg: Leg)
    requires s.Valid() && st in s.onward
    ensures Sprouted(s, st, name, shot, leg).Valid() && Grows(s, Sprouted(s, st, name, shot, leg))
  {
    var t := Founded(s, name, StationComment(shot.comment), DirectionOf(shot.flipped));
    FoundedGrows(s, name, StationComment(shot.comment), DirectionOf(shot.flipped));
    AttachedGrows(t, st, leg);
    GrowsTransitive(s, t, Attached(t, st, leg));
  }

  lemma {:induction false} PassGrows(p: Pass, shots: seq<ShotData>, i: nat)
    requires |p.processed| == |shots| && i <= |shots| && p.s.Valid()
    ensures PassFrom(p, shots, i).s.Valid() && Grows(p.s, PassFrom(p, shots, i).s)
    decreases |shots| - i
  {
    hide ShotStep, Grows, SurveyState.Valid;
    if i < |shots| {
      var m := ShotStep(p, shots, i);
      StepGrows(p, shots, i);
      PassGrows(m, shots, i + 1);
      GrowsTransitive(p.s, m.s, PassFrom(m, shots, i + 1).s);
    } else {
      GrowsReflexive(p.s);
    }
  }

  /** All the passes together keep the survey well formed, keep the origin and its name, and only add stations and legs. */
  lemma {:induction false} BuildGrows(s: SurveyState, processed: seq<bool>, shots: seq<ShotData>)
    requires |processed| == |shots| && s.Valid()
    ensures Build(s, processed, shots).s.Valid() && Grows(s, Build(s, processed, shots).s)
    decreases Unprocessed(processed)
  {
    var q := PassFrom(Pass(s, processed, false), shots, 0);
    PassGrows(Pass(s, processed, false), shots, 0);
    if q.progress {
      PassProgress(Pass(s, processed, false), shots, 0);
      BuildGrows(q.s, q.processed, shots);
      GrowsTransitive(s, q.s, Build(q.s, q.processed, shots).s);
    }
  }

  // ---- the whole import ------------------------------------------------------

  /** new Survey(): the origin alone, named originName, active, with nothing recorded. */
  function Initial(originName: string): (r: SurveyState)
    ensures r.Valid() && r.onward == map[0 := []] && r.names == map[0 := originName] && r.record == []
  {
    assert IdsBelow([], 0);
    SurveyState(map[0 := originName], map[0 := ""], map[0 := Right], map[0 := []], 0, 0, [], true, 1, 0)
  }

  /** The "from" of the first shot that has one. */
  function FirstFrom(shots: seq<ShotData>): (r: Option<string>)
    ensures r.None? <==> forall k :: 0 <= k < |shots| ==> shots[k].from.None?
    ensures r.Some? ==> exists k :: 0 <= k < |shots| && shots[k].from == r
  {
    if shots == [] then None
    else if shots[0].from.Some? then shots[0].from
    else
      var r := FirstFrom(shots[1..]);
      assert forall k :: 1 <= k < |shots| ==> shots[k] == shots[1..][k - 1];
      r
  }

  /** The first shot with a "from" names the origin; no earlier shot has one. */
  lemma {:induction false} FirstFromAt(shots: seq<ShotData>, i: nat)
    requires i < |shots| && shots[i].from.Some?
    requires forall j :: 0 <= j < i ==> shots[j].from.None?
    ensures FirstFrom(shots) == shots[i].from
  {
    if i > 0 {
      assert forall j :: 0 <= j < i - 1 ==> shots[1..][j] == shots[j + 1];
      FirstFromAt(shots[1..], i - 1);
    }
  }

  /** The origin renamed after the first "from" in the file, when there is one. */
  function OriginNamed(s: SurveyState, shots: seq<ShotData>): (r: SurveyState)
    ensures r == s.(names := r.names)
    ensures r.names == if FirstFrom(shots).Some? then s.names[s.origin := FirstFrom(shots).value] else s.names
  {
    match FirstFrom(shots)
    case Some(name) => s.(names := s.names[s.origin := name])
    case None => s
  }

  /** A reference with a station and a non-empty comment sets the comment of the first station of that name, if any. */
  function ApplyReference(s: SurveyState, ref: ReferenceData): (r: SurveyState)
    ensures r == s.(comments := r.comments) && s.comments.Keys <= r.comments.Keys
    ensures forall st :: st in r.comments && (st in s.comments ==> r.comments[st] != s.comments[st]) ==>
      st in s.names && ref.station == Some(s.names[st]) && ref.comment != "" && r.comments[st] == ref.comment
    ensures ref.station.Some? && ref.comment != "" && s.StationByName(ref.station.value).Some? ==>
      r.comments == s.comments[s.StationByName(ref.station.value).value := ref.comment]
    ensures ref.station.None? || ref.comment == "" || s.StationByName(ref.station.value).None? ==> r == s
    ensures s.Valid() ==> r.Valid()
  {
    if ref.station.Some? && ref.comment != "" then
      match s.StationByName(ref.station.value)
      case Some(st) =>
        FoundInOnward(s, ref.station.value);
        s.(comments := s.comments[st := ref.comment])
      case None => s
    else s
  }

  /** The references applied in file order. */
  function ApplyReferences(s: SurveyState, refs: seq<ReferenceData>): (r: SurveyState)
    ensures r == s.(comments := r.comments) && s.comments.Keys <= r.comments.Keys
    ensures forall st :: st in r.comments && (st in s.comments ==> r.comments[st] != s.comments[st]) ==>
      st in s.names && exists k :: 0 <= k < |refs| && refs[k].station == Some(s.names[st]) && refs[k].comment == r.comments[st]
    ensures s.Valid() ==> r.Valid()
  {
    if refs == [] then s
    else
      var t := ApplyReferences(s, refs[..|refs| - 1]);
      var r := ApplyReference(t, refs[|refs| - 1]);
      assert forall k :: 0 <= k < |refs| - 1 ==> refs[..|refs| - 1][k] == refs[k];
      r
  }

  /** The comment of the last reference that names the station and carries a non-empty comment, if any. */
  function LastReferenceComment(refs: seq<ReferenceData>, name: string): Option<string>
  {
    if refs == [] then None
    else if refs[|refs| - 1].station == Some(name) && refs[|refs| - 1].comment != "" then Some(refs[|refs| - 1].comment)
    else LastReferenceComment(refs[..|refs| - 1], name)
  }

  /**
   * The station a name finds takes the comment of the last reference naming
   * it with a non-empty comment, and keeps its own comment when there is none;
   * the references never change which station the name finds.
   */
  lemma {:induction false} ApplyReferencesLastWins(s: SurveyState, refs: seq<ReferenceData>, name: string)
    requires s.StationByName(name).Some?
    ensures ApplyReferences(s, refs).StationByName(name) == s.StationByName(name)
    ensures LastReferenceComment(refs, name).Some? ==>
      s.StationByName(name).value in ApplyReferences(s, refs).comments &&
      ApplyReferences(s, refs).comments[s.StationByName(name).value] == LastReferenceComment(refs, name).value
    ensures LastReferenceComment(refs, name).None? && s.StationByName(name).value in s.comments ==>
      ApplyReferences(s, refs).comments[s.StationByName(name).value] == s.comments[s.StationByName(name).value]
    decreases |refs|
  {
    if refs != [] {
      var init := refs[..|refs| - 1];
      var last := refs[|refs| - 1];
      ApplyReferencesSnoc(s, refs);
      hide ApplyReferences, ApplyReference;
      ApplyReferencesLastWins(s, init, name);
      ApplyReferenceAt(ApplyReferences(s, init), last, name);
    }
  }

  lemma ApplyReferencesSnoc(s: SurveyState, refs: seq<ReferenceData>)
    requires refs != []
    ensures ApplyReferences(s, refs) == ApplyReference(ApplyReferences(s, refs[..|refs| - 1]), refs[|refs| - 1])
  {
  }

  /** One reference sets the comment of the station a name finds when it names that name with a non-empty comment, and leaves it alone otherwise. */
  lemma ApplyReferenceAt(t: SurveyState, ref: ReferenceData, name: string)
    requires t.StationByName(name).Some?
    ensures var st := t.StationByName(name).value;
      var r := ApplyReference(t, ref);
      r.StationByName(name) == t.StationByName(name) &&
      (ref.station == Some(name) && ref.comment != "" ==> st in r.comments && r.comments[st] == ref.comment) &&
      (ref.station != Some(name) || ref.comment == "" ==> st in t.comments ==> r.comments[st] == t.comments[st])
  {
    var st := t.StationByName(name).value;
    var r := ApplyReference(t, ref);
    StationByNameOfSameNames(t, r, name);
    if ref.station.Some? && ref.comment != "" && t.StationByName(ref.station.value).Some? {
      var found := t.StationByName(ref.station.value).value;
      if ref.station.value != name {
        assert t.names[found] == ref.station.value;
        assert t.names[st] == name;
        assert found != st;
      }
    }
  }

  /** The passes of buildSurvey, from the survey with its origin named and no shot processed. */
  function Reconciled(shots: seq<ShotData>, originName: string): (q: Pass)
    ensures |q.processed| == |shots|
  {
    Build(OriginNamed(Initial(originName), shots), seq(|shots|, _ => false), shots)
  }

  /** buildSurvey without the trip: the reconciled shots, then the reference comments. */
  function Imported(shots: seq<ShotData>, refs: seq<ReferenceData>, originName: string): SurveyState
  {
    ApplyReferences(Reconciled(shots, originName).s, refs)
  }

  /** The trip of buildSurvey: the first trip's date and comment on a new Trip, none without trips. */
  function ImportedTrip(trips: seq<TripData>, blank: Trip): (r: Option<Trip>)
    ensures r.None? <==> trips == []
    ensures r.Some? ==> r.value == blank.(date := trips[0].date, comments := trips[0].comment)
  {
    if trips == [] then None else Some(blank.(date := trips[0].date, comments := trips[0].comment))
  }

  /** parseSurvey up to the drawings: the survey read from the file, marked saved, with its trip. */
  function ImportedFile(data: seq<Byte>, utf8: Utf8, originName: string, blank: Trip): Result<(SurveyState, Option<Trip>)>
  {
    var records :- RecordsAt(data, utf8);
    var rec := records.value;
    Ok((Imported(rec.shots, rec.references, originName).(saved := true), ImportedTrip(rec.trips, blank)))
  }


  /**
   * The imported survey is well formed; its origin is station 0, named after the first shot with a "from" (the
   * default name when there is none), and never renamed by the passes or the references.
   */
  lemma ImportedOrigin(shots: seq<ShotData>, refs: seq<ReferenceData>, originName: string)
    ensures var r := Imported(shots, refs, originName);
      r.Valid() && r.origin == 0 && 0 in r.names &&
      r.names[0] == (if FirstFrom(shots).Some? then FirstFrom(shots).value else originName)
  {
    BuildGrows(OriginNamed(Initial(originName), shots), seq(|shots|, _ => false), shots);
  }

  /** The only shots the import leaves out are those whose stations the imported survey does not contain. */
  lemma ImportedDropsOnlyUnplaceable(shots: seq<ShotData>, refs: seq<ReferenceData>, originName: string)
    ensures forall k :: 0 <= k < |shots| && !Reconciled(shots, originName).processed[k] ==>
      Unplaceable(Imported(shots, refs, originName), shots[k])
  {
    var q := Reconciled(shots, originName);
    var r := Imported(shots, refs, originName);
    BuildDropsOnlyUnplaceable(OriginNamed(Initial(originName), shots), seq(|shots|, _ => false), shots);
    forall k | 0 <= k < |shots| && !q.processed[k] ensures Unplaceable(r, shots[k]) {
      StationByNameOfSameNames(q.s, r, shots[k].from.value);
      if shots[k].to.Some? {
        StationByNameOfSameNames(q.s, r, shots[k].to.value);
      }
    }
  }

  // ---- buildSurvey as the source runs it -------------------------------------

  /** collectRepeatLegs: every unprocessed shot with target's (from, to) pair, as a leg in file order, each marked processed. */
  method CollectRepeatLegs(shots: seq<ShotData>, processed: array<bool>, target: ShotData) returns (legs: seq<Leg>)
    requires processed.Length == |shots|
    modifies processed
    ensures legs == Repeats(shots, old(processed[..]), target)
    ensures processed[..] == MarkRepeats(shots, old(processed[..]), target)
  {
    ghost var before := processed[..];
    legs := [];
    for j := 0 to |shots|
      invariant legs == RepeatsUpTo(shots, before, target, j)
      invariant forall k :: 0 <= k < j ==> processed[k] == MarkRepeats(shots, before, target)[k]
      invariant forall k :: j <= k < |shots| ==> processed[k] == before[k]
    {
      if processed[j] {
        continue;
      }
      var shot := shots[j];
      if target.from == shot.from && target.to == shot.to {
        legs := legs + [Splay(0, shot.distance, shot.azimuth, shot.inclination)];
        processed[j] := true;
      }
    }
  }

  /** fromStation.addOnwardLeg(leg) and survey.addLegRecord(leg) for a new leg object. */
  method AttachLeg(survey: Survey, st: StationId, leg: Leg)
    requires st in survey.onward
    modifies survey`onward, survey`record, survey`nextLeg
    ensures survey.State() == Attached(old(survey.State()), st, leg)
  {
    var placed := survey.NewIdentity(leg);
    survey.AddOnwardLeg(st, placed);
    survey.AddLegRecord(placed);
  }

  /** new Station(name), with the shot's comment when it has a non-empty one, and LEFT when the shot is flipped. */
  method AddNewStation(survey: Survey, name: string, shot: ShotData) returns (st: StationId)
    modifies survey`names, survey`comments, survey`directions, survey`onward, survey`nextStation
    ensures st == old(survey.nextStation)
    ensures survey.State() == Founded(old(survey.State()), name, StationComment(shot.comment), DirectionOf(shot.flipped))
  {
    st := survey.NewStation(name, if shot.flipped then Left else Right);
    if shot.comment.Some? && shot.comment.value != "" {
      survey.SetComment(st, shot.comment.value);
    }
  }

  /** The readings of the new leg: the average of several repeats, or the single one. */
  method MergeRepeats(originals: seq<Leg>) returns (averaged: Leg)
    requires |originals| > 0
    ensures averaged == Merged(originals)
  {
    if |originals| > 1 {
      averaged := AverageLegs(originals);
    } else {
      averaged := originals[0];
    }
  }

  /** The foresight branch after the repeats are collected. */
  method PlaceForesight(survey: Survey, from: StationId, shot: ShotData, originals: seq<Leg>)
    requires from in survey.onward && shot.to.Some? && |originals| > 0
    modifies survey`names, survey`comments, survey`directions, survey`onward, survey`nextStation
    modifies survey`record, survey`nextLeg, survey`active
    ensures survey.State() == Foresight(old(survey.State()), from, shot, originals)
  {
    var st := AddNewStation(survey, shot.to.value, shot);
    var averaged := MergeRepeats(originals);
    var promotedFrom := if |originals| > 1 then originals else [];
    AttachLeg(survey, from, Leg(0, averaged.distance, averaged.azimuth, averaged.inclination, Some(st), false, promotedFrom, []));
    survey.SetActiveStation(st);
  }

  /** The backsight branch after the repeats are collected: the averaged leg turned round. */
  method PlaceBacksight(survey: Survey, to: StationId, shot: ShotData, originals: seq<Leg>)
    requires to in survey.onward && shot.from.Some? && |originals| > 0
    modifies survey`names, survey`comments, survey`directions, survey`onward, survey`nextStation
    modifies survey`record, survey`nextLeg, survey`active
    ensures survey.State() == Backsight(old(survey.State()), to, shot, originals)
  {
    var st := AddNewStation(survey, shot.from.value, shot);
    var averaged := MergeRepeats(originals);
    var promotedFrom := if |originals| > 1 then originals else [];
    var forwardAzimuth := AdjustAngle(averaged.azimuth, 180.0);
    var forwardInclination := -averaged.inclination;
    AttachLeg(survey, to, Leg(0, averaged.distance, forwardAzimuth, forwardInclination, Some(st), true, promotedFrom, []));
    survey.SetActiveStation(st);
  }

  /** The body of the pass loop for shot i: progress' is the pass's progress flag afterwards. */
  method ProcessShot(survey: Survey, processed: array<bool>, shots: seq<ShotData>, i: nat, progress: bool)
    returns (progress': bool)
    requires processed.Length == |shots| && i < |shots|
    modifies survey`names, survey`comments, survey`directions, survey`onward, survey`nextStation
    modifies survey`record, survey`nextLeg, survey`active, processed
    ensures Pass(survey.State(), processed[..], progress') ==
      ShotStep(Pass(old(survey.State()), old(processed[..]), progress), shots, i)
  {
    progress' := progress;
    if processed[i] {
      return;
    }
    var shot := shots[i];
    if shot.from.None? {
      processed[i] := true;
      progress' := true;
      return;
    }
    var fromStation := survey.State().StationByName(shot.from.value);
    var toStation := if shot.to.Some? then survey.State().StationByName(shot.to.value) else None;
    if shot.to.None? {
      if fromStation.None? {
        return;
      }
      processed[i] := true;
      progress' := true;
      FoundInOnward(survey.State(), shot.from.value);
      AttachLeg(survey, fromStation.value, Splay(0, shot.distance, shot.azimuth, shot.inclination));
    } else if fromStation.Some? && toStation.None? {
      progress' := ForesightShot(survey, processed, shots, i, fromStation.value);
    } else if fromStation.None? && toStation.Some? {
      progress' := BacksightShot(survey, processed, shots, i, toStation.value);
    } else if fromStation.Some? {
      processed[i] := true;
      progress' := true;
    }
  }

  method ForesightShot(survey: Survey, processed: array<bool>, shots: seq<ShotData>, i: nat, from: StationId)
    returns (progress': bool)
    requires processed.Length == |shots| && i < |shots| && !processed[i] && shots[i].from.Some? && shots[i].to.Some?
    requires survey.State().StationByName(shots[i].from.value) == Some(from)
    modifies survey`names, survey`comments, survey`directions, survey`onward, survey`nextStation
    modifies survey`record, survey`nextLeg, survey`active, processed
    ensures progress' && processed[..] == MarkRepeats(shots, old(processed[..]), shots[i])
    ensures |Repeats(shots, old(processed[..]), shots[i])| > 0 && from in old(survey.onward)
    ensures survey.State() == Foresight(old(survey.State()), from, shots[i], Repeats(shots, old(processed[..]), shots[i]))
  {
    RepeatsIncludeSelf(shots, processed[..], i);
    FoundInOnward(survey.State(), shots[i].from.value);
    var originalLegs := CollectRepeatLegs(shots, processed, shots[i]);
    progress' := true;
    PlaceForesight(survey, from, shots[i], originalLegs);
  }

  method BacksightShot(survey: Survey, processed: array<bool>, shots: seq<ShotData>, i: nat, to: StationId)
    returns (progress': bool)
    requires processed.Length == |shots| && i < |shots| && !processed[i] && shots[i].from.Some? && shots[i].to.Some?
    requires survey.State().StationByName(shots[i].to.value) == Some(to)
    modifies survey`names, survey`comments, survey`directions, survey`onward, survey`nextStation
    modifies survey`record, survey`nextLeg, survey`active, processed
    ensures progress' && processed[..] == MarkRepeats(shots, old(processed[..]), shots[i])
    ensures |Repeats(shots, old(processed[..]), shots[i])| > 0 && to in old(survey.onward)
    ensures survey.State() == Backsight(old(survey.State()), to, shots[i], Repeats(shots, old(processed[..]), shots[i]))
  {
    RepeatsIncludeSelf(shots, processed[..], i);
    FoundInOnward(survey.State(), shots[i].to.value);
    var originalLegs := CollectRepeatLegs(shots, processed, shots[i]);
    progress' := true;
    PlaceBacksight(survey, to, shots[i], originalLegs);
  }

  /** One pass of the while (progress) loop: whether any shot was placed, skipped or marked. */
  method RunPass(survey: Survey, processed: array<bool>, shots: seq<ShotData>) returns (progress: bool)
    requires processed.Length == |shots|
    modifies survey`names, survey`comments, survey`directions, survey`onward, survey`nextStation
    modifies survey`record, survey`nextLeg, survey`active, processed
    ensures Pass(survey.State(), processed[..], progress) ==
      PassFrom(Pass(old(survey.State()), old(processed[..]), false), shots, 0)
  {
    progress := false;
    for i := 0 to |shots|
      invariant PassFrom(Pass(old(survey.State()), old(processed[..]), false), shots, 0) ==
        PassFrom(Pass(survey.State(), processed[..], progress), shots, i)
    {
      progress := ProcessShot(survey, processed, shots, i, progress);
    }
  }

  /** The origin takes the name of the first shot's "from" that is not null. */
  method NameOrigin(survey: Survey, shots: seq<ShotData>)
    modifies survey`names
    ensures survey.State() == OriginNamed(old(survey.State()), shots)
  {
    for i := 0 to |shots|
      invariant forall j :: 0 <= j < i ==> shots[j].from.None?
      invariant survey.names == old(survey.names)
    {
      if shots[i].from.Some? {
        FirstFromAt(shots, i);
        survey.SetName(survey.origin, shots[i].from.value);
        return;
      }
    }
  }

  /** One reference applied to the survey. */
  method ApplyReferenceComment(survey: Survey, ref: ReferenceData)
    modifies survey`comments
    ensures survey.State() == ApplyReference(old(survey.State()), ref)
  {
    if ref.station.Some? && ref.comment != "" {
      var station := survey.State().StationByName(ref.station.value);
      if station.Some? {
        survey.SetComment(station.value, ref.comment);
      }
    }
  }

  lemma ApplyReferencesStep(s: SurveyState, refs: seq<ReferenceData>, k: nat)
    requires k < |refs|
    ensures ApplyReferences(s, refs[..k + 1]) == ApplyReference(ApplyReferences(s, refs[..k]), refs[k])
  {
    assert refs[..k + 1][..k] == refs[..k];
  }

  /** The reference loop: each reference with a station and a non-empty comment comments the station of that name. */
  method ApplyReferenceComments(survey: Survey, references: seq<ReferenceData>)
    modifies survey`comments
    ensures survey.State() == ApplyReferences(old(survey.State()), references)
  {
    ghost var start := survey.State();
    for k := 0 to |references|
      invariant survey.State() == ApplyReferences(start, references[..k])
    {
      ApplyReferencesStep(start, references, k);
      ApplyReferenceComment(survey, references[k]);
    }
    assert references[..|references|] == references;
  }

  /** The while (progress) loop over a fresh processed array: passes until one makes no progress. */
  method Reconcile(survey: Survey, shots: seq<ShotData>)
    modifies survey`names, survey`comments, survey`directions, survey`onward, survey`nextStation
    modifies survey`record, survey`nextLeg, survey`active
    ensures survey.State() == Build(old(survey.State()), seq(|shots|, _ => false), shots).s
  {
    var processed := new bool[|shots|](_ => false);
    ghost var start := survey.State();
    assert processed[..] == seq(|shots|, _ => false);
    var progress := true;
    while progress
      invariant Build(start, seq(|shots|, _ => false), shots).s ==
        if progress then Build(survey.State(), processed[..], shots).s else survey.State()
      decreases Unprocessed(processed[..]) + (if progress then 1 else 0)
    {
      ghost var before := Pass(survey.State(), processed[..], false);
      progress := RunPass(survey, processed, shots);
      PassProgress(before, shots, 0);
    }
  }

  /**
   * buildSurvey: a new survey (origin named originName until a shot names it), the first trip's date and comment on
   * the blank trip, the passes until one makes no progress, then the reference comments.
   */
  method BuildSurvey(trips: seq<TripData>, shots: seq<ShotData>, references: seq<ReferenceData>, originName: string, blank: Trip)
    returns (survey: Survey)
    ensures fresh(survey)
    ensures survey.State() == Imported(shots, references, originName) && survey.trip == ImportedTrip(trips, blank)
  {
    survey := new Survey(originName);
    assert survey.State() == Initial(originName);
    if trips != [] {
      survey.SetTrip(blank.(date := trips[0].date, comments := trips[0].comment));
    }
    NameOrigin(survey, shots);
    Reconcile(survey, shots);
    ApplyReferenceComments(survey, references);
  }

  /**
   * parseSurvey up to the drawings: the records read from the stream, the survey built from them, marked saved.
   * A failure of any reader is the failure of the whole.
   */
  method ParseSurvey(stream: ByteStream, utf8: Utf8, originName: string, blank: Trip) returns (r: Result<Survey>)
    requires stream.Valid() && stream.pos == 0
    modifies stream`pos
    ensures stream.Valid()
    ensures var expected := ImportedFile(stream.data, utf8, originName, blank);
      r.Ok? == expected.Ok? && (r.Err? ==> r.error == expected.error) &&
      (r.Ok? ==> fresh(r.value) && (r.value.State(), r.value.trip) == expected.value)
  {
    var records :- ReadRecords(stream, utf8);
    var survey := BuildSurvey(records.trips, records.shots, records.references, originName, blank);
    survey.SetSaved(true);
    return Ok(survey);
  }
}
