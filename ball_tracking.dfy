/**
 * Helpers of the ball-tracking endpoint: the point-list accessor for the two
 * trajectory schemas, the lateral swing estimate, the yorker / bouncer /
 * full-toss classification and the placeholder accuracy score.
 */
module BallTracking {
  import opened Common

  /** Points of a trajectory: `points_2d` when non-empty, else `trajectory` when non-empty, else none. */
  function GetPoints(t: BallTrack): (points: seq<Point>)
    ensures t.points2d.Some? && |t.points2d.value| > 0 ==> points == t.points2d.value
    ensures !(t.points2d.Some? && |t.points2d.value| > 0) ==>
      points == (if t.trajectory.Some? then t.trajectory.value else [])
  {
    if t.points2d.Some? && |t.points2d.value| > 0 then t.points2d.value
    else if t.trajectory.Some? && |t.trajectory.value| > 0 then t.trajectory.value
    else []
  }

  /** Fewest points for which swing and ball type are estimated. */
  const MinPoints: nat := 10

  function IntMin(a: int, b: int): int
  {
    if a <= b then a else b
  }

  /**
   * Index of the "pitch" point, `min(len - 1, int(len * 0.6))`: always a valid
   * index, and the `len - 1` bound never takes effect.
   */
  function PitchIndex(n: nat): (k: nat)
    requires n > 0
    ensures k < n
    ensures k == ((n as real) * 0.6).Floor
  {
    IntMin(n - 1, ((n as real) * 0.6).Floor)
  }

  /** Lateral swing: a tenth of the sideways shift between the first point and the pitch point. */
  function EstimateSwing(t: BallTrack): (swing: real)
    ensures swing >= 0.0
    ensures |GetPoints(t)| < MinPoints ==> swing == 0.0
    ensures |GetPoints(t)| >= MinPoints ==>
      var p := GetPoints(t);
      swing == Abs(p[PitchIndex(|p|)].x - p[0].x) * 0.1
  {
    var points := GetPoints(t);
    if |points| < MinPoints then 0.0
    else
      var releaseX := points[0].x;
      var pitchX := points[PitchIndex(|points|)].x;
      Abs(pitchX - releaseX) * 0.1
  }

  datatype BallType = BallType(isYorker: bool, isBouncer: bool, isFullToss: bool)

  const NoBallType := BallType(false, false, false)

  /** At most one of the three flags is set. */
  predicate AtMostOneFlag(b: BallType)
  {
    (b.isYorker ==> !b.isBouncer && !b.isFullToss) && (b.isBouncer ==> !b.isFullToss)
  }

  /** Classification by the lowest height reached: below 0.2, above 0.8, in (0.4, 0.8]. */
  function BallTypeOf(minHeight: real): (b: BallType)
    ensures AtMostOneFlag(b)
    ensures b.isYorker <==> minHeight < 0.2
    ensures b.isBouncer <==> minHeight > 0.8
    ensures b.isFullToss <==> 0.4 < minHeight <= 0.8
  {
    if minHeight < 0.2 then BallType(true, false, false)
    else if minHeight > 0.8 then BallType(false, true, false)
    else if minHeight > 0.4 then BallType(false, false, true)
    else NoBallType
  }

  /** Heights of the points after the first five (the early skip window). */
  function HeightsAfterRelease(points: seq<Point>): (hs: seq<real>)
    requires |points| >= 5
    ensures |hs| == |points| - 5
    ensures forall i :: 0 <= i < |hs| ==> hs[i] == points[i + 5].y
  {
    seq(|points| - 5, i requires 0 <= i < |points| - 5 => points[i + 5].y)
  }

  /** The lowest height after the skip window, as Python's `min` over `points[5:]`. */
  function MinHeightAfterRelease(points: seq<Point>): (h: real)
    requires |points| >= MinPoints
    ensures exists i :: 5 <= i < |points| && points[i].y == h
    ensures forall i :: 5 <= i < |points| ==> h <= points[i].y
  {
    var hs := HeightsAfterRelease(points);
    var h := SeqMin(hs);
    assert hs[ArgMinFirst(hs)] == points[ArgMinFirst(hs) + 5].y;
    assert forall i :: 5 <= i < |points| ==> hs[i - 5] == points[i].y;
    h
  }

  /** Ball type of a trajectory; all flags false with fewer than ten points. The speed argument is unused. */
  function ClassifyBallType(t: BallTrack, speed: real): (b: BallType)
    ensures AtMostOneFlag(b)
    ensures |GetPoints(t)| < MinPoints ==> b == NoBallType
    ensures |GetPoints(t)| >= MinPoints ==> b == BallTypeOf(MinHeightAfterRelease(GetPoints(t)))
  {
    var points := GetPoints(t);
    if |points| < MinPoints then NoBallType
    else BallTypeOf(MinHeightAfterRelease(points))
  }

  /** A yorker is reported exactly when some point after the skip window is below 0.2. */
  lemma YorkerIffLowPoint(t: BallTrack, speed: real)
    requires |GetPoints(t)| >= MinPoints
    ensures ClassifyBallType(t, speed).isYorker <==>
      exists i :: 5 <= i < |GetPoints(t)| && GetPoints(t)[i].y < 0.2
  {
    var p := GetPoints(t);
    var h := MinHeightAfterRelease(p);
    if ClassifyBallType(t, speed).isYorker {
      var i :| 5 <= i < |p| && p[i].y == h;
      assert p[i].y < 0.2;
    }
  }

  /** A bouncer is reported exactly when every point after the skip window is above 0.8. */
  lemma BouncerIffAllHigh(t: BallTrack, speed: real)
    requires |GetPoints(t)| >= MinPoints
    ensures ClassifyBallType(t, speed).isBouncer <==>
      forall i :: 5 <= i < |GetPoints(t)| ==> GetPoints(t)[i].y > 0.8
  {
    var p := GetPoints(t);
    var h := MinHeightAfterRelease(p);
    if forall i :: 5 <= i < |p| ==> p[i].y > 0.8 {
      var i :| 5 <= i < |p| && p[i].y == h;
      assert h > 0.8;
    }
  }

  /** Placeholder accuracy: 75 for every trajectory, whatever its points. */
  function CalculateAccuracy(t: BallTrack): (score: real)
    ensures score == 75.0
  {
    75.0
  }
}
