/**
 * The value-computing half of SurveyUpdater: deciding whether a handful of
 * shots are "about the same", and averaging them into one leg. Each Java
 * method with an accumulator loop is a method here, proved against a
 * function that states the same value by recursion; the lemmas are about
 * those functions.
 */
module Averaging {
  import opened Wrappers
  import opened Legs

  /** The two user preferences that bound how far repeated shots may differ. */
  datatype Tolerances = Tolerances(maxDistanceDelta: real, maxAngleDelta: real)

  // ---- sequences of reals -----------------------------------------------

  /** Math.min and Math.max on floats, without the NaN cases. */
  function MathMin(a: real, b: real): real { if a <= b then a else b }
  function MathMax(a: real, b: real): real { if a >= b then a else b }

  function Min(xs: seq<real>): real
    requires |xs| > 0
  {
    if |xs| == 1 then xs[0] else MathMin(xs[|xs| - 1], Min(xs[..|xs| - 1]))
  }

  function Max(xs: seq<real>): real
    requires |xs| > 0
  {
    if |xs| == 1 then xs[0] else MathMax(xs[|xs| - 1], Max(xs[..|xs| - 1]))
  }

  /** No value is below the minimum nor above the maximum. */
  lemma {:induction false} MinMaxBound(xs: seq<real>)
    requires |xs| > 0
    ensures forall k :: 0 <= k < |xs| ==> Min(xs) <= xs[k] <= Max(xs)
  {
    if |xs| > 1 {
      MinMaxBound(xs[..|xs| - 1]);
      forall k | 0 <= k < |xs| - 1 ensures xs[..|xs| - 1][k] == xs[k] { }
    }
  }

  lemma MinIs(xs: seq<real>, k: nat)
    requires k < |xs| && forall j :: 0 <= j < |xs| ==> xs[k] <= xs[j]
    ensures Min(xs) == xs[k]
  {
    var lo := MinAttained(xs);
    MinMaxBound(xs);
  }

  lemma MaxIs(xs: seq<real>, k: nat)
    requires k < |xs| && forall j :: 0 <= j < |xs| ==> xs[j] <= xs[k]
    ensures Max(xs) == xs[k]
  {
    var hi := MaxAttained(xs);
    MinMaxBound(xs);
  }

  lemma MinMaxPair(a: real, b: real)
    ensures Min([a, b]) == MathMin(a, b) && Max([a, b]) == MathMax(a, b)
  {
    assert [a, b][..1] == [a];
  }

  function Spread(xs: seq<real>): real
    requires |xs| > 0
  {
    Max(xs) - Min(xs)
  }

  function Sum(xs: seq<real>): real
  {
    if xs == [] then 0.0 else Sum(xs[..|xs| - 1]) + xs[|xs| - 1]
  }

  function Mean(xs: seq<real>): real
    requires |xs| > 0
  {
    Sum(xs) / (|xs| as real)
  }

  /** The minimum is one of the values: the index of its first occurrence. */
  lemma {:induction false} MinAttained(xs: seq<real>) returns (lo: nat)
    requires |xs| > 0
    ensures lo < |xs| && xs[lo] == Min(xs)
  {
    if |xs| == 1 {
      lo := 0;
    } else if xs[|xs| - 1] <= Min(xs[..|xs| - 1]) {
      lo := |xs| - 1;
    } else {
      lo := MinAttained(xs[..|xs| - 1]);
    }
  }

  lemma {:induction false} MaxAttained(xs: seq<real>) returns (hi: nat)
    requires |xs| > 0
    ensures hi < |xs| && xs[hi] == Max(xs)
  {
    if |xs| == 1 {
      hi := 0;
    } else if xs[|xs| - 1] >= Max(xs[..|xs| - 1]) {
      hi := |xs| - 1;
    } else {
      hi := MaxAttained(xs[..|xs| - 1]);
    }
  }

  /** The spread is within t exactly when every pair of values is within t. */
  lemma SpreadWithin(xs: seq<real>, t: real)
    requires |xs| > 0
    ensures Spread(xs) <= t <==> forall i, j :: 0 <= i < |xs| && 0 <= j < |xs| ==> xs[i] - xs[j] <= t
  {
    var lo := MinAttained(xs);
    var hi := MaxAttained(xs);
    MinMaxBound(xs);
    assert Spread(xs) == xs[hi] - xs[lo];
  }

  lemma {:induction false} SumBounds(xs: seq<real>, lo: real, hi: real)
    requires forall k :: 0 <= k < |xs| ==> lo <= xs[k] <= hi
    ensures (|xs| as real) * lo <= Sum(xs) <= (|xs| as real) * hi
  {
    if xs != [] {
      SumBounds(xs[..|xs| - 1], lo, hi);
    }
  }

  lemma QuotientBounds(s: real, n: real, lo: real, hi: real)
    requires n > 0.0 && n * lo <= s <= n * hi
    ensures lo <= s / n <= hi
  {
    assert s / n - lo == (s - n * lo) / n;
    assert hi - s / n == (n * hi - s) / n;
  }

  /** An average lies between the smallest and the largest value averaged. */
  lemma MeanWithinRange(xs: seq<real>)
    requires |xs| > 0
    ensures Min(xs) <= Mean(xs) <= Max(xs)
  {
    hide Min, Max, Sum;
    var lo, hi, n := Min(xs), Max(xs), |xs| as real;
    MinMaxBound(xs);
    SumBounds(xs, lo, hi);
    QuotientBounds(Sum(xs), n, lo, hi);
  }

  lemma MinMaxStep(xs: seq<real>, k: nat)
    requires 0 < k < |xs|
    ensures Min(xs[..k + 1]) == MathMin(xs[k], Min(xs[..k]))
    ensures Max(xs[..k + 1]) == MathMax(xs[k], Max(xs[..k]))
  {
    assert xs[..k + 1][..k] == xs[..k];
  }

  lemma MinMaxFirst(xs: seq<real>)
    requires |xs| > 0
    ensures Min(xs[..1]) == xs[0] && Max(xs[..1]) == xs[0]
  {
    assert xs[..1] == [xs[0]];
  }

  // ---- the measurements of a list of legs --------------------------------

  function Distances(legs: seq<Leg>): (r: seq<real>)
    ensures |r| == |legs| && forall k :: 0 <= k < |legs| ==> r[k] == legs[k].distance
  {
    seq(|legs|, k requires 0 <= k < |legs| => legs[k].distance)
  }

  function Azimuths(legs: seq<Leg>): (r: seq<real>)
    ensures |r| == |legs| && forall k :: 0 <= k < |legs| ==> r[k] == legs[k].azimuth
  {
    seq(|legs|, k requires 0 <= k < |legs| => legs[k].azimuth)
  }

  function Inclinations(legs: seq<Leg>): (r: seq<real>)
    ensures |r| == |legs| && forall k :: 0 <= k < |legs| ==> r[k] == legs[k].inclination
  {
    seq(|legs|, k requires 0 <= k < |legs| => legs[k].inclination)
  }

  /** (azimuth + offset) % 360 with offset 540 - first: the first leg's azimuth lands on 180 degrees. */
  function Shifted(azimuth: real, first: real): real
  {
    JavaRem360(azimuth + (540.0 - first))
  }

  function ShiftedAzimuths(legs: seq<Leg>): (r: seq<real>)
    requires |legs| > 0
    ensures |r| == |legs| && forall k :: 0 <= k < |legs| ==> r[k] == Shifted(legs[k].azimuth, legs[0].azimuth)
  {
    seq(|legs|, k requires 0 <= k < |legs| => Shifted(legs[k].azimuth, legs[0].azimuth))
  }

  predicate AllSplays(legs: seq<Leg>)
  {
    forall k :: 0 <= k < |legs| ==> !legs[k].HasDestination()
  }

  /** areLegsAboutTheSame: all splays, and each measurement's spread within its tolerance. */
  predicate AboutTheSame(legs: seq<Leg>, tol: Tolerances)
    requires |legs| > 0
  {
    AllSplays(legs) &&
    Spread(Distances(legs)) <= tol.maxDistanceDelta &&
    Spread(ShiftedAzimuths(legs)) <= tol.maxAngleDelta &&
    Spread(Inclinations(legs)) <= tol.maxAngleDelta
  }

  /** The first leg's own azimuth is turned to exactly 180. */
  lemma FirstShiftedIsHalfTurn(legs: seq<Leg>)
    requires |legs| > 0
    ensures ShiftedAzimuths(legs)[0] == 180.0
  {
  }

  /**
   * For azimuths in [0, 360) the shifted value is 180 plus the signed
   * circular offset from the first leg, an offset in [-180, 180) that
   * differs from the plain difference by a whole turn or not at all.
   */
  lemma ShiftedIsCircularOffset(a: real, first: real)
    requires IsAzimuth(a) && IsAzimuth(first)
    ensures var d := Shifted(a, first) - 180.0;
      -180.0 <= d < 180.0 && (d == a - first || d == a - first + 360.0 || d == a - first - 360.0)
  {
  }

  /** Pairwise reading of areLegsAboutTheSame: every two shots agree within the tolerances. */
  lemma AboutTheSamePairwise(legs: seq<Leg>, tol: Tolerances)
    requires |legs| > 0
    ensures AboutTheSame(legs, tol) <==>
      AllSplays(legs) &&
      (forall i, j :: 0 <= i < |legs| && 0 <= j < |legs| ==>
        legs[i].distance - legs[j].distance <= tol.maxDistanceDelta &&
        Shifted(legs[i].azimuth, legs[0].azimuth) - Shifted(legs[j].azimuth, legs[0].azimuth) <= tol.maxAngleDelta &&
        legs[i].inclination - legs[j].inclination <= tol.maxAngleDelta)
  {
    SpreadWithin(Distances(legs), tol.maxDistanceDelta);
    SpreadWithin(ShiftedAzimuths(legs), tol.maxAngleDelta);
    SpreadWithin(Inclinations(legs), tol.maxAngleDelta);
  }

  /** Two splays on either side of north, one degree each way, are about the same. */
  lemma AcrossNorthAboutTheSame(d: real, incl: real)
    ensures AboutTheSame([Splay(0, d, 359.0, incl), Splay(0, d, 1.0, incl)], Tolerances(0.0, 2.0))
  {
    var legs := [Splay(0, d, 359.0, incl), Splay(0, d, 1.0, incl)];
    assert ShiftedAzimuths(legs) == [180.0, 182.0];
    assert Distances(legs) == [d, d];
    assert Inclinations(legs) == [incl, incl];
    MinMaxPair(180.0, 182.0);
    MinMaxPair(d, d);
    MinMaxPair(incl, incl);
  }

  method AreLegsAboutTheSame(legs: seq<Leg>, tol: Tolerances) returns (same: bool)
    requires |legs| > 0
    ensures same == AboutTheSame(legs, tol)
  {
    hide Min, Max;
    for k := 0 to |legs|
      invariant AllSplays(legs[..k])
    {
      if legs[k].HasDestination() {
        return false;
      }
    }
    assert legs[..|legs|] == legs;
    var minDistance, maxDistance := legs[0].distance, legs[0].distance;
    var first := Shifted(legs[0].azimuth, legs[0].azimuth);
    var minAzimuth, maxAzimuth := first, first;
    var minInclination, maxInclination := legs[0].inclination, legs[0].inclination;
    ghost var ds, az, inc := Distances(legs), ShiftedAzimuths(legs), Inclinations(legs);
    MinMaxFirst(ds);
    MinMaxFirst(az);
    MinMaxFirst(inc);
    for k := 1 to |legs|
      invariant minDistance == Min(ds[..k]) && maxDistance == Max(ds[..k])
      invariant minAzimuth == Min(az[..k]) && maxAzimuth == Max(az[..k])
      invariant minInclination == Min(inc[..k]) && maxInclination == Max(inc[..k])
    {
      MinMaxStep(ds, k);
      MinMaxStep(az, k);
      MinMaxStep(inc, k);
      var leg := legs[k];
      minDistance := MathMin(leg.distance, minDistance);
      maxDistance := MathMax(leg.distance, maxDistance);
      var shiftedAzimuth := Shifted(leg.azimuth, legs[0].azimuth);
      minAzimuth := MathMin(shiftedAzimuth, minAzimuth);
      maxAzimuth := MathMax(shiftedAzimuth, maxAzimuth);
      minInclination := MathMin(leg.inclination, minInclination);
      maxInclination := MathMax(leg.inclination, maxInclination);
    }
    assert ds[..|legs|] == ds && az[..|legs|] == az && inc[..|legs|] == inc;
    same := maxDistance - minDistance <= tol.maxDistanceDelta &&
      maxAzimuth - minAzimuth <= tol.maxAngleDelta &&
      maxInclination - minInclination <= tol.maxAngleDelta;
  }

  // ---- averaging --------------------------------------------------------

  /** averageAzimuths' test: the azimuths straddle north when they span more than a half turn. */
  predicate SplitOverZero(azimuths: seq<real>)
  {
    Max([MinAzimuth] + azimuths) - Min([MaxAzimuth] + azimuths) > 180.0
  }

  function Corrected(azimuths: seq<real>, split: bool): (r: seq<real>)
    ensures |r| == |azimuths|
    ensures forall k :: 0 <= k < |r| ==> r[k] == if split && azimuths[k] < 180.0 then azimuths[k] + 360.0 else azimuths[k]
  {
    seq(|azimuths|, k requires 0 <= k < |azimuths| => if split && azimuths[k] < 180.0 then azimuths[k] + 360.0 else azimuths[k])
  }

  /** The circular mean averageAzimuths computes. */
  function MeanAzimuth(azimuths: seq<real>): real
    requires |azimuths| > 0
  {
    JavaRem360(Mean(Corrected(azimuths, SplitOverZero(azimuths))))
  }

  lemma {:induction false} SumNonNegative(xs: seq<real>)
    requires forall k :: 0 <= k < |xs| ==> xs[k] >= 0.0
    ensures Sum(xs) >= 0.0
  {
    if xs != [] {
      SumNonNegative(xs[..|xs| - 1]);
    }
  }

  /** Averaging azimuths that are not negative gives an azimuth in [0, 360). */
  lemma MeanAzimuthIsAzimuth(azimuths: seq<real>)
    requires |azimuths| > 0
    requires forall k :: 0 <= k < |azimuths| ==> azimuths[k] >= 0.0
    ensures IsAzimuth(MeanAzimuth(azimuths))
  {
    var corrected := Corrected(azimuths, SplitOverZero(azimuths));
    SumNonNegative(corrected);
    assert Sum(corrected) / (|corrected| as real) >= 0.0;
  }

  /** Azimuths within a half turn of one another, not straddling north, average arithmetically. */
  lemma MeanAzimuthWithoutSplit(azimuths: seq<real>)
    requires |azimuths| > 0
    requires forall k :: 0 <= k < |azimuths| ==> IsAzimuth(azimuths[k])
    requires Spread(azimuths) <= 180.0
    ensures MeanAzimuth(azimuths) == Mean(azimuths)
  {
    PaddedRange(azimuths);
    var lo := MinAttained(azimuths);
    var hi := MaxAttained(azimuths);
    MeanWithinRange(azimuths);
    hide Min, Max, Sum, Mean, JavaRem360;
    assert !SplitOverZero(azimuths);
    assert Corrected(azimuths, false) == azimuths;
  }

  /** The far ends of the range that averageAzimuths starts from do not change the smallest and largest azimuth. */
  lemma PaddedRange(azimuths: seq<real>)
    requires |azimuths| > 0
    requires forall k :: 0 <= k < |azimuths| ==> IsAzimuth(azimuths[k])
    ensures Max([MinAzimuth] + azimuths) == Max(azimuths) && Min([MaxAzimuth] + azimuths) == Min(azimuths)
  {
    hide Min, Max;
    var lo := MinAttained(azimuths);
    var hi := MaxAttained(azimuths);
    MinMaxBound(azimuths);
    var withMin := [MinAzimuth] + azimuths;
    var withMax := [MaxAzimuth] + azimuths;
    assert withMin[hi + 1] == azimuths[hi] && withMax[lo + 1] == azimuths[lo];
    forall k | 0 <= k < |withMin| ensures withMin[k] <= withMin[hi + 1] && withMax[lo + 1] <= withMax[k] {
      if k > 0 { assert withMin[k] == azimuths[k - 1] && withMax[k] == azimuths[k - 1]; }
    }
    MaxIs(withMin, hi + 1);
    MinIs(withMax, lo + 1);
  }

  /** 359 and 1 degrees average to north, not to south. */
  lemma MeanAzimuthAcrossNorth()
    ensures MeanAzimuth([359.0, 1.0]) == 0.0
  {
    var azimuths := [359.0, 1.0];
    MaxIs([MinAzimuth] + azimuths, 1);
    MinIs([MaxAzimuth] + azimuths, 2);
    assert Corrected(azimuths, true) == [359.0, 361.0];
    assert Sum([359.0, 361.0]) == 720.0 by {
      assert [359.0, 361.0][..1] == [359.0];
      assert [359.0][..0] == [];
    }
  }

  method AverageAzimuths(azimuths: seq<real>) returns (r: real)
    requires |azimuths| > 0
    ensures r == MeanAzimuth(azimuths)
  {
    hide Min, Max, Sum, Corrected;
    var min, max := AzimuthRange(azimuths);
    var splitOverZero := max - min > 180.0;
    var sum := CorrectedSum(azimuths, splitOverZero);
    r := JavaRem360(sum / (|azimuths| as real));
  }

  /** The first loop of averageAzimuths: the smallest and largest azimuth, starting from the far ends of the range. */
  method AzimuthRange(azimuths: seq<real>) returns (min: real, max: real)
    ensures min == Min([MaxAzimuth] + azimuths) && max == Max([MinAzimuth] + azimuths)
  {
    min, max := MaxAzimuth, MinAzimuth;
    ghost var withMin, withMax := [MinAzimuth] + azimuths, [MaxAzimuth] + azimuths;
    for k := 0 to |azimuths|
      invariant min == Min(withMax[..k + 1]) && max == Max(withMin[..k + 1])
    {
      MinMaxStep(withMax, k + 1);
      MinMaxStep(withMin, k + 1);
      var azimuth := azimuths[k];
      if azimuth < min { min := azimuth; }
      if azimuth > max { max := azimuth; }
    }
    assert withMax[..|azimuths| + 1] == withMax && withMin[..|azimuths| + 1] == withMin;
  }

  /** The second loop of averageAzimuths: the sum with the low azimuths moved up a turn when the values split over zero. */
  method CorrectedSum(azimuths: seq<real>, splitOverZero: bool) returns (sum: real)
    ensures sum == Sum(Corrected(azimuths, splitOverZero))
  {
    ghost var corrected := Corrected(azimuths, splitOverZero);
    sum := 0.0;
    for k := 0 to |azimuths|
      invariant sum == Sum(corrected[..k])
    {
      SumStep(corrected, k);
      var azimuth := azimuths[k];
      if splitOverZero && azimuth < 180.0 {
        azimuth := azimuth + 360.0;
      }
      sum := sum + azimuth;
    }
    assert corrected[..|azimuths|] == corrected;
  }

  lemma SumStep(xs: seq<real>, k: nat)
    requires k < |xs|
    ensures Sum(xs[..k + 1]) == Sum(xs[..k]) + xs[k]
  {
    assert xs[..k + 1][..k] == xs[..k];
  }

  /** The single splay averageLegs builds: mean distance, circular mean azimuth, mean inclination. */
  function AveragedLeg(legs: seq<Leg>): Leg
    requires |legs| > 0
  {
    Splay(0, Mean(Distances(legs)), MeanAzimuth(Azimuths(legs)), Mean(Inclinations(legs)))
  }

  method AverageLegs(repeats: seq<Leg>) returns (r: Leg)
    requires |repeats| > 0
    ensures r == AveragedLeg(repeats)
  {
    var distance, inclination := 0.0, 0.0;
    var azimuths: seq<real> := [];
    ghost var ds, inc := Distances(repeats), Inclinations(repeats);
    for k := 0 to |repeats|
      invariant distance == Sum(ds[..k]) && inclination == Sum(inc[..k])
      invariant azimuths == Azimuths(repeats[..k])
    {
      assert ds[..k + 1][..k] == ds[..k] && inc[..k + 1][..k] == inc[..k];
      distance := distance + repeats[k].distance;
      inclination := inclination + repeats[k].inclination;
      azimuths := azimuths + [repeats[k].azimuth];
    }
    assert ds[..|repeats|] == ds && inc[..|repeats|] == inc && repeats[..|repeats|] == repeats;
    var n := |repeats| as real;
    var azimuth := AverageAzimuths(azimuths);
    r := Splay(0, distance / n, azimuth, inclination / n);
  }

  /**
   * Averaging shots that are about the same gives a leg whose distance and
   * inclination are within the tolerances of every shot averaged.
   */
  lemma AveragedLegWithinTolerance(legs: seq<Leg>, tol: Tolerances, k: nat)
    requires |legs| > 0 && k < |legs|
    requires AboutTheSame(legs, tol)
    ensures var avg := AveragedLeg(legs);
      -tol.maxDistanceDelta <= avg.distance - legs[k].distance <= tol.maxDistanceDelta &&
      -tol.maxAngleDelta <= avg.inclination - legs[k].inclination <= tol.maxAngleDelta
  {
    MeanWithinRange(Distances(legs));
    MeanWithinRange(Inclinations(legs));
    MinMaxBound(Distances(legs));
    MinMaxBound(Inclinations(legs));
    assert Distances(legs)[k] == legs[k].distance;
    assert Inclinations(legs)[k] == legs[k].inclination;
  }

  lemma ConstantValues(xs: seq<real>, v: real)
    requires |xs| > 0 && forall k :: 0 <= k < |xs| ==> xs[k] == v
    ensures Min(xs) == v && Max(xs) == v && Mean(xs) == v
  {
    MinIs(xs, 0);
    MaxIs(xs, 0);
    MeanWithinRange(xs);
  }

  /** Averaging equal shots changes nothing but the provenance. */
  lemma AveragedIdenticalShots(l: Leg, n: nat)
    requires n > 0 && IsAzimuth(l.azimuth)
    ensures var avg := AveragedLeg(seq(n, _ => l));
      avg.distance == l.distance && avg.azimuth == l.azimuth && avg.inclination == l.inclination
  {
    var legs := seq(n, _ => l);
    ConstantValues(Distances(legs), l.distance);
    ConstantValues(Inclinations(legs), l.inclination);
    var az := Azimuths(legs);
    ConstantValues(az, l.azimuth);
    MeanAzimuthWithoutSplit(az);
  }

  /** areLegsBacksights: a foresight and the far-end reading of its backsight agree. */
  method AreLegsBacksights(fore: Leg, back: Leg, tol: Tolerances) returns (b: bool)
    ensures b == AboutTheSame([fore, AsBacksight(back)], tol)
  {
    b := AreLegsAboutTheSame([fore, AsBacksight(back)], tol);
  }

  /** The pair test spelled out: both splays, distances, turned azimuths and inclinations within tolerance. */
  lemma BacksightPairCondition(fore: Leg, back: Leg, tol: Tolerances)
    ensures AboutTheSame([fore, AsBacksight(back)], tol) <==>
      !fore.HasDestination() && !back.HasDestination() &&
      -tol.maxDistanceDelta <= fore.distance - back.distance <= tol.maxDistanceDelta &&
      -tol.maxAngleDelta <= Shifted(AdjustAngle(back.azimuth, 180.0), fore.azimuth) - 180.0 <= tol.maxAngleDelta &&
      -tol.maxAngleDelta <= fore.inclination + back.inclination <= tol.maxAngleDelta
  {
    var legs := [fore, AsBacksight(back)];
    AboutTheSamePairwise(legs, tol);
    FirstShiftedIsHalfTurn(legs);
    if AboutTheSame(legs, tol) {
      assert legs[0].distance - legs[1].distance <= tol.maxDistanceDelta;
      assert legs[1].distance - legs[0].distance <= tol.maxDistanceDelta;
    }
  }

  method AverageBacksights(fore: Leg, back: Leg) returns (r: Leg)
    ensures r == AveragedLeg([fore, AsBacksight(back)])
  {
    r := AverageLegs([fore, AsBacksight(back)]);
  }
}
