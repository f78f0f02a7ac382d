/**
 * The speed and spin estimates the advanced detector adds on top of the
 * tracker: a ball speed in km/h from the mean step length of a trajectory,
 * and a spin rate in rpm from the sign changes of the ball's sideways
 * deviation from its overall direction of travel.
 */
module AdvancedBallDetection {
  import opened Common
  import opened BallDetector
  import BallTracking

  /** The point list of a trajectory dictionary: `trajectory` when non-empty, else `points_2d` when non-empty, else none. */
  function TrajectoryFirstPoints(t: BallTrack): (points: seq<Point>)
    ensures t.trajectory.Some? && |t.trajectory.value| > 0 ==> points == t.trajectory.value
    ensures !(t.trajectory.Some? && |t.trajectory.value| > 0) ==>
      points == (if t.points2d.Some? then t.points2d.value else [])
  {
    if t.trajectory.Some? && |t.trajectory.value| > 0 then t.trajectory.value
    else if t.points2d.Some? && |t.points2d.value| > 0 then t.points2d.value
    else []
  }

  /** Speed in km/h of a mean step of `pixelsPerFrame` pixels, at `fps` frames per second and `ppm` pixels per metre. */
  function KmPerHour(pixelsPerFrame: real, fps: real, ppm: real): real
    requires ppm != 0.0
  {
    (pixelsPerFrame * fps) / ppm * 3.6
  }

  /** Signed sideways offset of each centre from the first, against the direction (`dirX`, `dirY`). */
  function Lateral(cs: seq<Point>, dirX: real, dirY: real): (lat: seq<real>)
    requires |cs| > 0
    ensures |lat| == |cs|
    ensures forall i :: 0 <= i < |cs| ==> lat[i] == -(cs[i].x - cs[0].x) * dirY + (cs[i].y - cs[0].y) * dirX
  {
    seq(|cs|, i requires 0 <= i < |cs| => -(cs[i].x - cs[0].x) * dirY + (cs[i].y - cs[0].y) * dirX)
  }

  /** The number of adjacent positions whose signs differ (`sum(diff(sign(v)) != 0)`); 0 is a sign of its own. */
  function SignChanges(v: seq<real>): (n: nat)
    ensures |v| > 0 ==> n <= |v| - 1
    ensures |v| == 0 ==> n == 0
  {
    if |v| <= 1 then 0
    else SignChanges(v[..|v| - 1]) + (if Sign(v[|v| - 2]) != Sign(v[|v| - 1]) then 1 else 0)
  }

  /** Half a revolution per sign change, over the time the centres span. */
  function SpinRpm(crossings: nat, n: nat, fps: real): real
    requires n > 0 && fps > 0.0
  {
    ((crossings as real) / 2.0) / ((n as real) / fps) * 60.0
  }

  /** The centres of the detections that carry a bounding box, in input order. */
  function CentresOf(ds: seq<Detection>): (cs: seq<Point>)
    ensures |cs| <= |ds|
    ensures (forall d :: d in ds ==> d.bbox.Some?) ==> |cs| == |ds|
    ensures (forall d :: d in ds ==> d.bbox.None?) ==> cs == []
  {
    if |ds| == 0 then []
    else
      var last := ds[|ds| - 1];
      assert forall d :: d in ds[..|ds| - 1] ==> d in ds;
      CentresOf(ds[..|ds| - 1]) + (if last.bbox.Some? then [Centre(last.bbox.value)] else [])
  }

  /**
   * Dividing the direction by its (positive) length scales every lateral
   * offset by the same positive factor, so the sign changes are the same.
   */
  lemma {:induction false} ScaledSignChanges(v: seq<real>, w: seq<real>, norm: real)
    requires norm > 0.0
    requires |v| == |w|
    requires forall i :: 0 <= i < |v| ==> w[i] == v[i] / norm
    ensures SignChanges(w) == SignChanges(v)
  {
    if |v| > 1 {
      ScaledSignChanges(v[..|v| - 1], w[..|w| - 1], norm);
      assert Sign(w[|w| - 1]) == Sign(v[|v| - 1]);
      assert Sign(w[|w| - 2]) == Sign(v[|v| - 2]);
    }
  }

  lemma LateralOfUnitDirection(cs: seq<Point>, dx: real, dy: real, norm: real)
    requires |cs| > 0 && norm > 0.0
    ensures SignChanges(Lateral(cs, dx / norm, dy / norm)) == SignChanges(Lateral(cs, dx, dy))
  {
    var v, w := Lateral(cs, dx, dy), Lateral(cs, dx / norm, dy / norm);
    forall i | 0 <= i < |cs|
      ensures w[i] == v[i] / norm
    {
      var a, b := cs[i].x - cs[0].x, cs[i].y - cs[0].y;
      assert w[i] == -a * (dy / norm) + b * (dx / norm);
      assert -a * (dy / norm) + b * (dx / norm) == (-a * dy + b * dx) / norm;
    }
    ScaledSignChanges(v, w, norm);
  }

  /** The spin estimate is below 30 revolutions per minute per frame per second. */
  lemma SpinRpmBound(crossings: nat, n: nat, fps: real)
    requires n > 0 && fps > 0.0
    requires crossings <= n - 1
    ensures 0.0 <= SpinRpm(crossings, n, fps) < 30.0 * fps
  {
    var c, m := crossings as real, n as real;
    assert SpinRpm(crossings, n, fps) == c * fps * 30.0 / m;
    assert c * fps * 30.0 < m * fps * 30.0;
  }

  /** The squared length of a direction is positive unless the direction is zero. */
  lemma SumOfSquaresPositive(dx: real, dy: real)
    ensures dx * dx + dy * dy >= 0.0
    ensures dx != 0.0 || dy != 0.0 ==> dx * dx + dy * dy > 0.0
    ensures dx == 0.0 && dy == 0.0 ==> dx * dx + dy * dy == 0.0
  {
    SquarePositive(dx);
    SquarePositive(dy);
    if dx == 0.0 && dy == 0.0 {
      assert dx * dx == 0.0 * 0.0;
      assert dy * dy == 0.0 * 0.0;
    }
  }

  /** The spin estimate from at least five centres, before rounding. */
  function CentresSpin(cs: seq<Point>, fps: real): (rpm: real)
    requires |cs| >= 5 && fps > 0.0
    ensures 0.0 <= rpm < 30.0 * fps
    ensures cs[|cs| - 1] == cs[0] ==> rpm == 0.0
  {
    var dx, dy := cs[|cs| - 1].x - cs[0].x, cs[|cs| - 1].y - cs[0].y;
    if dx == 0.0 && dy == 0.0 then 0.0
    else
      SpinRpmBound(SignChanges(Lateral(cs, dx, dy)), |cs|, fps);
      SpinRpm(SignChanges(Lateral(cs, dx, dy)), |cs|, fps)
  }

  /** Collects the box centres of the detections that carry a box, in input order. */
  method CollectCentres(ballDetections: seq<Detection>) returns (centres: seq<Point>)
    ensures centres == CentresOf(ballDetections)
  {
    centres := [];
    for i := 0 to |ballDetections|
      invariant centres == CentresOf(ballDetections[..i])
    {
      assert ballDetections[..i + 1][..i] == ballDetections[..i];
      var det := ballDetections[i];
      if det.bbox.Some? {
        var bbox := det.bbox.value;
        var cx := (bbox.x1 + bbox.x2) / 2.0;
        var cy := (bbox.y1 + bbox.y2) / 2.0;
        centres := centres + [Point(cx, cy)];
      }
    }
    assert ballDetections[..|ballDetections|] == ballDetections;
  }

  /** Counts the adjacent sign changes of the lateral series. */
  method CountSignChanges(lateral: seq<real>) returns (zeroCrossings: nat)
    ensures zeroCrossings == SignChanges(lateral)
  {
    zeroCrossings := 0;
    if |lateral| == 0 {
      return;
    }
    for i := 1 to |lateral|
      invariant zeroCrossings == SignChanges(lateral[..i])
    {
      assert lateral[..i + 1][..i] == lateral[..i];
      if Sign(lateral[i]) != Sign(lateral[i - 1]) {
        zeroCrossings := zeroCrossings + 1;
      }
    }
    assert lateral[..|lateral|] == lateral;
  }

  class AdvancedBallDetector {
    /** Frames per second of the analysed video. */
    const fps: real
    /** Calibration: pixels that span one metre. */
    const pixelsPerMeter: real

    constructor (fps: real, pixelsPerMeter: real)
      requires fps > 0.0 && pixelsPerMeter > 0.0
      ensures this.fps == fps && this.pixelsPerMeter == pixelsPerMeter
    {
      this.fps := fps;
      this.pixelsPerMeter := pixelsPerMeter;
    }

    /** A detector with the default calibration: 30 frames per second, 100 pixels per metre. */
    constructor Default()
      ensures fps == 30.0 && pixelsPerMeter == 100.0
    {
      fps := 30.0;
      pixelsPerMeter := 100.0;
    }

    predicate Valid()
    {
      fps > 0.0 && pixelsPerMeter > 0.0
    }

    /**
     * Mean ball speed in km/h over the trajectory, before rounding to one
     * decimal: 0 for fewer than two points (an empty dictionary has none).
     */
    method CalculateBallSpeed(ballTrajectory: BallTrack, dist: (Point, Point) -> real) returns (kmh: real)
      requires Valid()
      requires DistanceLike(dist)
      ensures |TrajectoryFirstPoints(ballTrajectory)| < 2 ==> kmh == 0.0
      ensures |TrajectoryFirstPoints(ballTrajectory)| >= 2 ==>
        kmh == KmPerHour(Mean(StepDistances(TrajectoryFirstPoints(ballTrajectory), dist)), fps, pixelsPerMeter)
      ensures kmh >= 0.0
    {
      var points := TrajectoryFirstPoints(ballTrajectory);
      if |points| < 2 {
        return 0.0;
      }
      var frameDisplacements: seq<real> := [];
      for i := 1 to |points|
        invariant |frameDisplacements| == i - 1
        invariant forall k :: 0 <= k < i - 1 ==> frameDisplacements[k] == dist(points[k], points[k + 1])
      {
        frameDisplacements := frameDisplacements + [dist(points[i - 1], points[i])];
      }
      assert frameDisplacements == StepDistances(points, dist);
      StepsNonNegative(points, dist);
      var avgPixelsPerFrame := Mean(frameDisplacements);
      var metersPerSecond := (avgPixelsPerFrame * fps) / pixelsPerMeter;
      kmh := metersPerSecond * 3.6;
    }

    /** The spin estimate of the centres, computed with the unit direction of travel. */
    method SpinOfCentres(centres: seq<Point>, root: real -> real) returns (rpm: real)
      requires Valid()
      requires RootLike(root)
      requires |centres| >= 5
      ensures rpm == CentresSpin(centres, fps)
    {
      var n := |centres|;
      var dx, dy := centres[n - 1].x - centres[0].x, centres[n - 1].y - centres[0].y;
      SumOfSquaresPositive(dx, dy);
      var norm := root(dx * dx + dy * dy);
      if norm == 0.0 {
        assert dx == 0.0 && dy == 0.0;
        return 0.0;
      }
      assert norm > 0.0 && !(dx == 0.0 && dy == 0.0);
      var zeroCrossings := CrossingsAlong(centres, dx, dy, norm);
      rpm := RpmOfCrossings(zeroCrossings, n);
    }

    /** The sign changes of the lateral offsets from the unit direction `(dx, dy) / norm`. */
    method CrossingsAlong(centres: seq<Point>, dx: real, dy: real, norm: real) returns (zeroCrossings: nat)
      requires |centres| > 0 && norm > 0.0
      ensures zeroCrossings == SignChanges(Lateral(centres, dx, dy))
    {
      var dirX, dirY := dx / norm, dy / norm;
      var lateral := Lateral(centres, dirX, dirY);
      zeroCrossings := CountSignChanges(lateral);
      LateralOfUnitDirection(centres, dx, dy, norm);
    }

    /** Half a revolution per sign change, over the `n` frames' duration, per minute. */
    method RpmOfCrossings(zeroCrossings: nat, n: nat) returns (rpm: real)
      requires Valid() && n > 0
      ensures rpm == SpinRpm(zeroCrossings, n, fps)
    {
      var durationSeconds := (n as real) / fps;
      var revolutions := (zeroCrossings as real) / 2.0;
      rpm := (revolutions / durationSeconds) * 60.0;
    }

    /**
     * Spin estimate in rpm, before rounding: 0 with fewer than five
     * detections, fewer than five boxed detections, or no net movement
     * between the first and last centre; otherwise half a revolution per
     * sign change of the lateral offset, over the span of the centres.
     */
    method CalculateSpinRate(ballDetections: seq<Detection>, root: real -> real) returns (rpm: real)
      requires Valid()
      requires RootLike(root)
      ensures |ballDetections| < 5 || |CentresOf(ballDetections)| < 5 ==> rpm == 0.0
      ensures |ballDetections| >= 5 && |CentresOf(ballDetections)| >= 5 ==>
        rpm == CentresSpin(CentresOf(ballDetections), fps)
      ensures 0.0 <= rpm < 30.0 * fps
    {
      if |ballDetections| < 5 {
        return 0.0;
      }
      var centres := CollectCentres(ballDetections);
      if |centres| < 5 {
        return 0.0;
      }
      rpm := SpinOfCentres(centres, root);
    }
  }

  /**
   * The two point accessors disagree when a dictionary carries both schemas
   * with different non-empty lists: the speed estimate reads `trajectory`,
   * the swing and ball-type helpers read `points_2d`.
   */
  lemma AccessorsPreferOppositeKeys(t: BallTrack)
    requires t.points2d.Some? && |t.points2d.value| > 0
    requires t.trajectory.Some? && |t.trajectory.value| > 0
    ensures TrajectoryFirstPoints(t) == t.trajectory.value
    ensures BallTracking.GetPoints(t) == t.points2d.value
  {
  }

  /** A ball that never moves between trajectory points has speed 0. */
  lemma StationaryBallHasNoSpeed(t: BallTrack, dist: (Point, Point) -> real, fps: real, ppm: real)
    requires DistanceLike(dist) && ppm > 0.0
    requires |TrajectoryFirstPoints(t)| >= 2
    requires forall i :: 0 <= i < |TrajectoryFirstPoints(t)| ==> TrajectoryFirstPoints(t)[i] == TrajectoryFirstPoints(t)[0]
    ensures KmPerHour(Mean(StepDistances(TrajectoryFirstPoints(t), dist)), fps, ppm) == 0.0
  {
    var points := TrajectoryFirstPoints(t);
    StationaryPathHasNoSteps(points, dist);
    MeanOfZeros(StepDistances(points, dist));
  }

  /** With only one schema present, both accessors read the same list. */
  lemma AccessorsAgreeOnOneSchema(t: BallTrack)
    requires t.points2d.None? || t.trajectory.None?
    ensures TrajectoryFirstPoints(t) == BallTracking.GetPoints(t)
  {
  }
}
