/**
 * Legs of the survey tree: one measured edge (distance, azimuth,
 * inclination), an optional destination station (none means a splay), and
 * the raw shots it was averaged from. Stations are identified by number; a
 * leg's `id` stands for the identity of the Java object, which the survey
 * compares with == when it removes or replaces a leg.
 */
module Legs {
  import opened Wrappers

  type StationId = nat

  /** Extended-elevation direction of a station. */
  datatype Direction = Left | Right

  datatype Leg = Leg(
    id: nat,
    distance: real,
    azimuth: real,
    inclination: real,
    destination: Option<StationId>,
    wasShotBackwards: bool,
    promotedFrom: seq<Leg>,
    backsightPromotedFrom: seq<Leg>)
  {
    predicate HasDestination() { destination.Some? }

    /** Carries the raw shots it was averaged from. */
    predicate WasPromoted() { |promotedFrom| > 0 }

    predicate HasBacksightShots() { |backsightPromotedFrom| > 0 }
  }

  /** new Leg(distance, azimuth, inclination): a splay with no provenance. */
  function Splay(id: nat, distance: real, azimuth: real, inclination: real): Leg
  {
    Leg(id, distance, azimuth, inclination, None, false, [], [])
  }

  /** Leg.MIN_AZIMUTH and Leg.MAX_AZIMUTH. */
  const MinAzimuth: real := 0.0
  const MaxAzimuth: real := 360.0

  /** Java's float remainder x % 360, which truncates toward zero and keeps the sign of x. */
  function JavaRem360(x: real): (r: real)
    ensures x >= 0.0 ==> 0.0 <= r < 360.0
    ensures x < 0.0 ==> -360.0 < r <= 0.0
    ensures 0.0 <= x < 360.0 ==> r == x
    ensures 360.0 <= x < 720.0 ==> r == x - 360.0
  {
    if x >= 0.0 then x - 360.0 * ((x / 360.0).Floor as real)
    else
      var y := -x;
      -(y - 360.0 * ((y / 360.0).Floor as real))
  }

  /** An angle turned by delta and brought back into [0, 360). */
  function AdjustAngle(angle: real, delta: real): (r: real)
    ensures 0.0 <= r < 360.0
    ensures 0.0 <= angle + delta < 360.0 ==> r == angle + delta
    ensures 360.0 <= angle + delta < 720.0 ==> r == angle + delta - 360.0
  {
    var x := angle + delta;
    x - 360.0 * ((x / 360.0).Floor as real)
  }

  predicate IsAzimuth(a: real) { MinAzimuth <= a < MaxAzimuth }

  lemma AdjustAngleHalfTurnTwice(a: real)
    requires IsAzimuth(a)
    ensures AdjustAngle(AdjustAngle(a, 180.0), 180.0) == a
  {
  }

  /** leg.asBacksight(): the same shot as read from the far end. */
  function AsBacksight(l: Leg): (r: Leg)
    ensures IsAzimuth(r.azimuth)
  {
    l.(azimuth := AdjustAngle(l.azimuth, 180.0), inclination := -l.inclination)
  }

  /** leg.reverse(): the leg read from the far end, its provenance reversed shot by shot. */
  function Reverse(l: Leg): (r: Leg)
    ensures IsAzimuth(r.azimuth)
    ensures r.distance == l.distance && r.destination == l.destination
    ensures r.wasShotBackwards != l.wasShotBackwards
    ensures |r.promotedFrom| == |l.promotedFrom| && |r.backsightPromotedFrom| == |l.backsightPromotedFrom|
    decreases l
  {
    Leg(l.id, l.distance, AdjustAngle(l.azimuth, 180.0), -l.inclination, l.destination,
        !l.wasShotBackwards,
        seq(|l.promotedFrom|, i requires 0 <= i < |l.promotedFrom| => Reverse(l.promotedFrom[i])),
        seq(|l.backsightPromotedFrom|, i requires 0 <= i < |l.backsightPromotedFrom| => Reverse(l.backsightPromotedFrom[i])))
  }

  /** Every azimuth in the leg and its provenance lies in [0, 360). */
  predicate Normalised(l: Leg)
    decreases l
  {
    IsAzimuth(l.azimuth) &&
    (forall i :: 0 <= i < |l.promotedFrom| ==> Normalised(l.promotedFrom[i])) &&
    (forall i :: 0 <= i < |l.backsightPromotedFrom| ==> Normalised(l.backsightPromotedFrom[i]))
  }

  /** Reading a normalised leg from the far end twice gives back the same leg. */
  lemma {:induction false} ReverseTwice(l: Leg)
    requires Normalised(l)
    ensures Reverse(Reverse(l)) == l
    decreases l
  {
    var r := Reverse(Reverse(l));
    AdjustAngleHalfTurnTwice(l.azimuth);
    forall i | 0 <= i < |l.promotedFrom|
      ensures r.promotedFrom[i] == l.promotedFrom[i]
    {
      ReverseTwice(l.promotedFrom[i]);
    }
    forall i | 0 <= i < |l.backsightPromotedFrom|
      ensures r.backsightPromotedFrom[i] == l.backsightPromotedFrom[i]
    {
      ReverseTwice(l.backsightPromotedFrom[i]);
    }
  }

  /** leg.toSplay(): the measurements alone, without destination or provenance. */
  function ToSplay(l: Leg): (r: Leg)
    ensures !r.HasDestination() && !r.WasPromoted() && !r.HasBacksightShots()
    ensures r.distance == l.distance && r.azimuth == l.azimuth && r.inclination == l.inclination
  {
    Splay(l.id, l.distance, l.azimuth, l.inclination)
  }

  /** Leg.toFullLeg(destination): the same leg, now connected to a station. */
  function ToFullLeg(l: Leg, destination: StationId): (r: Leg)
    ensures r.destination == Some(destination)
    ensures r.(destination := l.destination) == l
  {
    l.(destination := Some(destination))
  }

  /** Leg.upgradeSplayToConnectedLeg(splay, destination, promotedFrom, backsightPromotedFrom). */
  function UpgradeSplayToConnectedLeg(splay: Leg, destination: StationId, promotedFrom: seq<Leg>, backsights: seq<Leg>): (r: Leg)
    ensures r.destination == Some(destination) && !r.wasShotBackwards
    ensures r.distance == splay.distance && r.azimuth == splay.azimuth && r.inclination == splay.inclination
    ensures r.promotedFrom == promotedFrom && r.backsightPromotedFrom == backsights
  {
    Leg(splay.id, splay.distance, splay.azimuth, splay.inclination, Some(destination), false, promotedFrom, backsights)
  }
}
