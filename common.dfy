/**
 * Values shared by the delivery-analysis modules: the detector outputs
 * (pose landmarks, ball bounding boxes, trajectory dictionaries), the
 * persisted delivery record, and the sequence reductions (sum, mean,
 * first maximum, first minimum) that the analysis code takes from Python's
 * built-ins and numpy.
 */
module Common {

  datatype Option<T> = None | Some(value: T)

  function GetOr<T>(o: Option<T>, default: T): T
  {
    match o
    case Some(v) => v
    case None => default
  }

  /** Python's `value or default` on an optional number: None and 0 are falsy. */
  function OrReal(o: Option<real>, default: real): (r: real)
    ensures o.Some? && o.value != 0.0 ==> r == o.value
    ensures (o.None? || o.value == 0.0) ==> r == default
  {
    if o.Some? && o.value != 0.0 then o.value else default
  }

  /** Python's truthiness of an optional string: None and "" are falsy. */
  predicate Truthy(o: Option<string>)
  {
    o.Some? && o.value != ""
  }

  /** One pose landmark in normalised frame coordinates. */
  datatype Landmark = Landmark(x: real, y: real, z: real)

  /** The per-frame joint angles of the pose service; `None` is a missing key. */
  datatype FrameMetrics = FrameMetrics(
    rightElbowAngle: Option<real>,
    leftElbowAngle: Option<real>,
    rightKneeAngle: Option<real>,
    leftKneeAngle: Option<real>)

  /** A pose frame: its landmarks (an absent list is empty) and its angles (`None` when the key is absent). */
  datatype PoseFrame = PoseFrame(landmarks: seq<Landmark>, metrics: Option<FrameMetrics>)

  datatype MetricKey = RightElbow | LeftElbow | RightKnee | LeftKnee

  /**
   * The angle a frame records under `key`, or `default` when the frame has no
   * metrics or its metrics lack that angle (`frame.get("metrics", {}).get(key, default)`).
   */
  function Metric(f: PoseFrame, key: MetricKey, default: real): (v: real)
    ensures f.metrics.None? ==> v == default
    ensures f.metrics.Some? && key == RightElbow ==>
      v == (if f.metrics.value.rightElbowAngle.Some? then f.metrics.value.rightElbowAngle.value else default)
    ensures f.metrics.Some? && key == LeftElbow ==>
      v == (if f.metrics.value.leftElbowAngle.Some? then f.metrics.value.leftElbowAngle.value else default)
    ensures f.metrics.Some? && key == RightKnee ==>
      v == (if f.metrics.value.rightKneeAngle.Some? then f.metrics.value.rightKneeAngle.value else default)
    ensures f.metrics.Some? && key == LeftKnee ==>
      v == (if f.metrics.value.leftKneeAngle.Some? then f.metrics.value.leftKneeAngle.value else default)
  {
    if f.metrics.None? then default
    else
      var m := f.metrics.value;
      match key
      case RightElbow => GetOr(m.rightElbowAngle, default)
      case LeftElbow => GetOr(m.leftElbowAngle, default)
      case RightKnee => GetOr(m.rightKneeAngle, default)
      case LeftKnee => GetOr(m.leftKneeAngle, default)
  }

  /** The x and y coordinates of a list of landmarks. */
  function Xs(ps: seq<Landmark>): (xs: seq<real>)
    ensures |xs| == |ps| && forall i :: 0 <= i < |ps| ==> xs[i] == ps[i].x
  {
    seq(|ps|, i requires 0 <= i < |ps| => ps[i].x)
  }

  function Ys(ps: seq<Landmark>): (ys: seq<real>)
    ensures |ys| == |ps| && forall i :: 0 <= i < |ps| ==> ys[i] == ps[i].y
  {
    seq(|ps|, i requires 0 <= i < |ps| => ps[i].y)
  }

  /** A ball position of a trajectory (either schema carries `x` and `y`). */
  datatype Point = Point(x: real, y: real)

  /** A detector bounding box `[x1, y1, x2, y2]` in pixels. */
  datatype BBox = BBox(x1: real, y1: real, x2: real, y2: real)

  function Centre(b: BBox): (c: Point)
    ensures c.x - b.x1 == b.x2 - c.x && c.y - b.y1 == b.y2 - c.y
  {
    Point((b.x1 + b.x2) / 2.0, (b.y1 + b.y2) / 2.0)
  }

  /**
   * A trajectory dictionary. The repository uses two schemas for the point
   * list: key `points_2d` and key `trajectory`; either may be absent. An
   * empty dictionary has every field `None`.
   */
  datatype BallTrack = BallTrack(
    points2d: Option<seq<Point>>,
    trajectory: Option<seq<Point>>,
    finalPosition: Option<Point>)

  /** A stored delivery row, as the insights queries read it; `None` is a NULL column. */
  datatype DeliveryRecord = DeliveryRecord(
    line: Option<string>,
    length: Option<string>,
    speedKmh: Option<real>,
    swingAngle: Option<real>,
    spinRpm: Option<real>,
    elbowExtension: Option<real>,
    releasePointY: Option<real>,
    runs: Option<int>,
    shotDirection: Option<string>,
    shotType: Option<string>,
    shotTiming: Option<real>,
    shotPower: Option<real>)

  function Abs(v: real): (r: real)
    ensures r >= 0.0 && (r == v || r == -v)
  {
    if v < 0.0 then -v else v
  }

  function Min(a: real, b: real): (r: real)
    ensures r <= a && r <= b && (r == a || r == b)
  {
    if a <= b then a else b
  }

  function Max(a: real, b: real): (r: real)
    ensures r >= a && r >= b && (r == a || r == b)
  {
    if a >= b then a else b
  }

  /** numpy's `sign`: -1, 0 or 1. */
  function Sign(v: real): (s: int)
    ensures s == 1 <==> v > 0.0
    ensures s == -1 <==> v < 0.0
    ensures s == 0 <==> v == 0.0
  {
    if v > 0.0 then 1 else if v < 0.0 then -1 else 0
  }

  /** The key of every element, in order: `[key(x) for x in xs]`. */
  function Keys<T>(xs: seq<T>, key: T -> real): (ks: seq<real>)
    ensures |ks| == |xs| && forall j :: 0 <= j < |xs| ==> ks[j] == key(xs[j])
  {
    seq(|xs|, j requires 0 <= j < |xs| => key(xs[j]))
  }

  /** Sum of a sequence, accumulated left to right. */
  function Sum(s: seq<real>): real
  {
    if |s| == 0 then 0.0 else Sum(s[..|s| - 1]) + s[|s| - 1]
  }

  function Mean(s: seq<real>): real
    requires |s| > 0
  {
    Sum(s) / (|s| as real)
  }

  lemma {:induction false} SumNonNegative(s: seq<real>)
    requires forall i :: 0 <= i < |s| ==> s[i] >= 0.0
    ensures Sum(s) >= 0.0
  {
    if |s| > 0 {
      SumNonNegative(s[..|s| - 1]);
    }
  }

  lemma {:induction false} SumOfZeros(s: seq<real>)
    requires forall i :: 0 <= i < |s| ==> s[i] == 0.0
    ensures Sum(s) == 0.0
  {
    if |s| > 0 {
      SumOfZeros(s[..|s| - 1]);
    }
  }

  /** Replacing one element changes the sum by the difference. */
  lemma {:induction false} SumUpdate(s: seq<real>, k: nat, v: real)
    requires k < |s|
    ensures Sum(s[k := v]) == Sum(s) - s[k] + v
  {
    var n := |s|;
    if k == n - 1 {
      assert s[k := v][..n - 1] == s[..n - 1];
    } else {
      SumUpdate(s[..n - 1], k, v);
      assert s[k := v][..n - 1] == s[..n - 1][k := v];
    }
  }

  lemma {:induction false} SumOfConstant(s: seq<real>, v: real)
    requires forall i :: 0 <= i < |s| ==> s[i] == v
    ensures Sum(s) == (|s| as real) * v
  {
    if |s| > 0 {
      SumOfConstant(s[..|s| - 1], v);
    }
  }

  /** The mean of a constant sequence is that constant. */
  lemma MeanOfConstant(s: seq<real>, v: real)
    requires |s| > 0
    requires forall i :: 0 <= i < |s| ==> s[i] == v
    ensures Mean(s) == v
  {
    SumOfConstant(s, v);
    ProductOverFactor(|s| as real, v);
  }

  lemma ProductOverFactor(n: real, v: real)
    requires n > 0.0
    ensures n * v / n == v
  {
  }

  lemma MeanNonNegative(s: seq<real>)
    requires |s| > 0
    requires forall i :: 0 <= i < |s| ==> s[i] >= 0.0
    ensures Mean(s) >= 0.0
  {
    SumNonNegative(s);
  }

  /**
   * The index Python's `max(xs, key=...)` picks: a maximum, and the first
   * one when several elements share the maximal key.
   */
  function ArgMaxFirst(keys: seq<real>): (k: nat)
    requires |keys| > 0
    ensures k < |keys|
    ensures forall i :: 0 <= i < |keys| ==> keys[i] <= keys[k]
    ensures forall i :: 0 <= i < k ==> keys[i] < keys[k]
  {
    if |keys| == 1 then 0
    else
      var k := ArgMaxFirst(keys[..|keys| - 1]);
      if keys[|keys| - 1] > keys[k] then |keys| - 1 else k
  }

  /** Only one index is a maximum with nothing as large before it. */
  lemma FirstMaximumUnique(keys: seq<real>, k: nat)
    requires k < |keys|
    requires forall i :: 0 <= i < |keys| ==> keys[i] <= keys[k]
    requires forall i :: 0 <= i < k ==> keys[i] < keys[k]
    ensures ArgMaxFirst(keys) == k
  {
  }

  /** The index Python's `min(xs, key=...)` picks: the first minimum. */
  function ArgMinFirst(keys: seq<real>): (k: nat)
    requires |keys| > 0
    ensures k < |keys|
    ensures forall i :: 0 <= i < |keys| ==> keys[k] <= keys[i]
    ensures forall i :: 0 <= i < k ==> keys[k] < keys[i]
  {
    if |keys| == 1 then 0
    else
      var k := ArgMinFirst(keys[..|keys| - 1]);
      if keys[|keys| - 1] < keys[k] then |keys| - 1 else k
  }

  /** Python's `max(xs)` of a non-empty list. */
  function SeqMax(s: seq<real>): (m: real)
    requires |s| > 0
    ensures m in s && forall i :: 0 <= i < |s| ==> s[i] <= m
  {
    s[ArgMaxFirst(s)]
  }

  /** Python's `min(xs)` of a non-empty list. */
  function SeqMin(s: seq<real>): (m: real)
    requires |s| > 0
    ensures m in s && forall i :: 0 <= i < |s| ==> m <= s[i]
  {
    s[ArgMinFirst(s)]
  }

  /** The range `max - min` of a non-empty list is never negative. */
  lemma RangeNonNegative(s: seq<real>)
    requires |s| > 0
    ensures SeqMax(s) - SeqMin(s) >= 0.0
  {
    assert SeqMin(s) <= s[0] <= SeqMax(s);
  }

  /**
   * What the model assumes of the Euclidean step distance it is given:
   * never negative, and zero between a point and itself.
   */
  ghost predicate DistanceLike(dist: (Point, Point) -> real)
  {
    (forall p, q :: dist(p, q) >= 0.0) && (forall p :: dist(p, p) == 0.0)
  }

  /** Distances between consecutive points: one fewer than the points. */
  function StepDistances(points: seq<Point>, dist: (Point, Point) -> real): (steps: seq<real>)
    ensures |points| <= 1 ==> steps == []
    ensures |points| > 1 ==> |steps| == |points| - 1
    ensures forall i :: 0 <= i < |steps| ==> steps[i] == dist(points[i], points[i + 1])
  {
    if |points| <= 1 then []
    else seq(|points| - 1, i requires 0 <= i < |points| - 1 => dist(points[i], points[i + 1]))
  }

  /** The steps of a path that stays in one place are all zero. */
  lemma StationaryPathHasNoSteps(points: seq<Point>, dist: (Point, Point) -> real)
    requires DistanceLike(dist)
    requires forall i :: 0 <= i < |points| ==> points[i] == points[0]
    ensures forall i :: 0 <= i < |StepDistances(points, dist)| ==> StepDistances(points, dist)[i] == 0.0
  {
  }

  /** What the model assumes of the square root it is given: zero at zero, positive on positive numbers. */
  ghost predicate RootLike(root: real -> real)
  {
    root(0.0) == 0.0 && forall v :: v > 0.0 ==> root(v) > 0.0
  }

  lemma MeanOfZeros(s: seq<real>)
    requires |s| > 0
    requires forall i :: 0 <= i < |s| ==> s[i] == 0.0
    ensures Mean(s) == 0.0
  {
    SumOfZeros(s);
  }

  lemma StepsNonNegative(points: seq<Point>, dist: (Point, Point) -> real)
    requires DistanceLike(dist)
    requires |points| > 1
    ensures Mean(StepDistances(points, dist)) >= 0.0
  {
    MeanNonNegative(StepDistances(points, dist));
  }

  lemma PositiveProduct(a: real, b: real)
    requires a > 0.0 && b > 0.0
    ensures a * b > 0.0
  {
  }

  /** A square is never negative, and positive unless its root is zero. */
  lemma SquarePositive(a: real)
    ensures a * a >= 0.0
    ensures a != 0.0 ==> a * a > 0.0
  {
    if a < 0.0 {
      PositiveProduct(-a, -a);
      assert a * a == (-a) * (-a);
    } else if a > 0.0 {
      PositiveProduct(a, a);
    }
  }
}
