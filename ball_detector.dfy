/**
 * The post-detection half of the ball tracker: detections (possibly several
 * per frame, in any order) are grouped by frame, the most confident one of
 * each frame becomes a trajectory point at its box centre, the points are
 * emitted in ascending frame order, and the mean step length is reported.
 * Also the confident-detection filter used as a bat-contact placeholder.
 * The detector model itself (video decoding, inference) is outside the
 * model: its output list is the input here.
 */
module BallDetector {
  import opened Common

  /** One detector hit: frame number, bounding box (absent in some producers) and confidence. */
  datatype Detection = Detection(frame: nat, bbox: Option<BBox>, confidence: real)

  datatype TrajectoryPoint = TrajectoryPoint(frame: nat, x: real, y: real, confidence: real)

  datatype TrackResult = TrackResult(
    trajectory: seq<TrajectoryPoint>,
    avgSpeed: real,
    totalFramesWithBall: nat)

  /** The frame numbers that carry at least one detection. */
  function FramesOf(ds: seq<Detection>): set<nat>
  {
    set d | d in ds :: d.frame
  }

  /** The detections of frame `f`, in input order (the list `frames_dict[f]`). */
  function OfFrame(ds: seq<Detection>, f: nat): (group: seq<Detection>)
    ensures forall d :: d in group <==> d in ds && d.frame == f
  {
    if |ds| == 0 then []
    else
      assert ds == ds[..|ds| - 1] + [ds[|ds| - 1]];
      OfFrame(ds[..|ds| - 1], f) + (if ds[|ds| - 1].frame == f then [ds[|ds| - 1]] else [])
  }

  /** A frame carries detections exactly when its group is non-empty. */
  lemma OfFrameNonEmpty(ds: seq<Detection>, f: nat)
    ensures |OfFrame(ds, f)| > 0 <==> f in FramesOf(ds)
  {
    if |OfFrame(ds, f)| > 0 {
      assert OfFrame(ds, f)[0] in OfFrame(ds, f);
    }
    if f in FramesOf(ds) {
      var d :| d in ds && d.frame == f;
      assert d in OfFrame(ds, f);
    }
  }

  function Confidences(ds: seq<Detection>): (cs: seq<real>)
    ensures |cs| == |ds| && forall i :: 0 <= i < |ds| ==> cs[i] == ds[i].confidence
  {
    seq(|ds|, i requires 0 <= i < |ds| => ds[i].confidence)
  }

  /** `max(frame_dets, key=confidence)`: the first detection of greatest confidence. */
  function MostConfident(ds: seq<Detection>): (best: Detection)
    requires |ds| > 0
    ensures best in ds
    ensures forall d :: d in ds ==> d.confidence <= best.confidence
    ensures exists j :: 0 <= j < |ds| && ds[j] == best && forall i :: 0 <= i < j ==> ds[i].confidence < best.confidence
  {
    var k := ArgMaxFirst(Confidences(ds));
    assert forall i :: 0 <= i < k ==> ds[i].confidence < ds[k].confidence;
    ds[k]
  }

  /** The trajectory point made from a detection: frame, box centre and confidence. */
  function PointOf(f: nat, d: Detection): TrajectoryPoint
    requires d.bbox.Some?
  {
    var c := Centre(d.bbox.value);
    TrajectoryPoint(f, c.x, c.y, d.confidence)
  }

  /**
   * `p` is the point the tracker makes for its frame: the centre and the
   * confidence of the most confident detection of that frame.
   */
  predicate IsBestOfFrame(ds: seq<Detection>, p: TrajectoryPoint)
  {
    var group := OfFrame(ds, p.frame);
    |group| > 0 && MostConfident(group).bbox.Some? && p == PointOf(p.frame, MostConfident(group))
  }

  /** The point made for a frame carries the highest confidence of that frame's detections. */
  lemma BestOfFrameIsMostConfident(ds: seq<Detection>, p: TrajectoryPoint, d: Detection)
    requires IsBestOfFrame(ds, p)
    requires d in ds && d.frame == p.frame
    ensures d.confidence <= p.confidence
  {
    assert d in OfFrame(ds, p.frame);
  }

  function XY(traj: seq<TrajectoryPoint>): (ps: seq<Point>)
    ensures |ps| == |traj| && forall i :: 0 <= i < |traj| ==> ps[i] == Point(traj[i].x, traj[i].y)
  {
    seq(|traj|, i requires 0 <= i < |traj| => Point(traj[i].x, traj[i].y))
  }

  predicate StrictlyAscending(traj: seq<TrajectoryPoint>)
  {
    forall a, b :: 0 <= a < b < |traj| ==> traj[a].frame < traj[b].frame
  }

  /** Below any member `x` of a set of frame numbers there is a least member. */
  lemma {:induction false} SetHasMinBelow(s: set<nat>, x: nat)
    requires x in s
    ensures exists m :: m in s && m <= x && forall g :: g in s ==> m <= g
    decreases x
  {
    if exists y :: y in s && y < x {
      var y :| y in s && y < x;
      SetHasMinBelow(s, y);
    }
  }

  /** `sorted(keys)`: the frame numbers in strictly ascending order. */
  method SortedFrames(keys: set<nat>) returns (frames: seq<nat>)
    ensures forall a, b :: 0 <= a < b < |frames| ==> frames[a] < frames[b]
    ensures forall f :: f in frames <==> f in keys
    ensures |frames| == |keys|
  {
    frames := [];
    var remaining := keys;
    while remaining != {}
      invariant remaining <= keys
      invariant forall f :: f in frames <==> f in keys && f !in remaining
      invariant forall a, b :: 0 <= a < b < |frames| ==> frames[a] < frames[b]
      invariant forall t, g :: 0 <= t < |frames| && g in remaining ==> frames[t] < g
      invariant |frames| + |remaining| == |keys|
      decreases |remaining|
    {
      var x :| x in remaining;
      SetHasMinBelow(remaining, x);
      var least :| least in remaining && forall g :: g in remaining ==> least <= g;
      frames := frames + [least];
      remaining := remaining - {least};
    }
  }

  /** One more detection adds its own frame to the frames seen. */
  lemma FramesStep(ds: seq<Detection>, i: nat)
    requires i < |ds|
    ensures FramesOf(ds[..i + 1]) == FramesOf(ds[..i]) + {ds[i].frame}
  {
    assert ds[..i + 1] == ds[..i] + [ds[i]];
  }

  /** One more detection joins the group of its own frame and no other. */
  lemma OfFrameStep(ds: seq<Detection>, i: nat)
    requires i < |ds|
    ensures OfFrame(ds[..i + 1], ds[i].frame) == OfFrame(ds[..i], ds[i].frame) + [ds[i]]
    ensures forall f :: f != ds[i].frame ==> OfFrame(ds[..i + 1], f) == OfFrame(ds[..i], f)
  {
    assert ds[..i + 1][..i] == ds[..i];
  }

  /** Groups the detections by frame number (`frames_dict`). */
  method GroupByFrame(detections: seq<Detection>) returns (framesDict: map<nat, seq<Detection>>)
    ensures framesDict.Keys == FramesOf(detections)
    ensures forall f :: f in framesDict ==> framesDict[f] == OfFrame(detections, f) && |framesDict[f]| > 0
  {
    framesDict := map[];
    var i := 0;
    while i < |detections|
      invariant 0 <= i <= |detections|
      invariant Grouped(framesDict, detections[..i])
    {
      var detection := detections[i];
      var frameNum := detection.frame;
      GroupedStep(framesDict, detections, i);
      // a frame seen for the first time opens an empty group; the detection is appended to it
      var group := if frameNum in framesDict then framesDict[frameNum] else [];
      framesDict := framesDict[frameNum := group + [detection]];
      i := i + 1;
    }
    assert detections[..i] == detections;
  }

  /** `m` holds, for every frame of `ds` and no other, its group of detections. */
  predicate Grouped(m: map<nat, seq<Detection>>, ds: seq<Detection>)
  {
    m.Keys == FramesOf(ds) && forall f :: f in m ==> m[f] == OfFrame(ds, f) && |m[f]| > 0
  }

  /** Appends `d` to the group of its frame, opening the group when it is new. */
  function AddToGroup(m: map<nat, seq<Detection>>, d: Detection): map<nat, seq<Detection>>
  {
    m[d.frame := (if d.frame in m then m[d.frame] else []) + [d]]
  }

  lemma GroupedStep(m: map<nat, seq<Detection>>, ds: seq<Detection>, i: nat)
    requires i < |ds| && Grouped(m, ds[..i])
    ensures Grouped(AddToGroup(m, ds[i]), ds[..i + 1])
  {
    var d := ds[i];
    FramesStep(ds, i);
    OfFrameNonEmpty(ds[..i], d.frame);
    GroupsStep(m, ds, i);
    KeysAfterUpdate(m, d.frame, (if d.frame in m then m[d.frame] else []) + [d]);
  }

  lemma KeysAfterUpdate(m: map<nat, seq<Detection>>, k: nat, v: seq<Detection>)
    ensures m[k := v].Keys == m.Keys + {k}
  {
  }

  /** The groups after one more detection, given the groups before it. */
  lemma GroupsStep(m: map<nat, seq<Detection>>, ds: seq<Detection>, i: nat)
    requires i < |ds|
    requires forall f :: f in m ==> m[f] == OfFrame(ds[..i], f) && |m[f]| > 0
    requires ds[i].frame !in m ==> |OfFrame(ds[..i], ds[i].frame)| == 0
    ensures var m' := AddToGroup(m, ds[i]);
      forall f :: f in m' ==> m'[f] == OfFrame(ds[..i + 1], f) && |m'[f]| > 0
  {
    OfFrameStep(ds, i);
    var d := ds[i];
    var m' := AddToGroup(m, d);
    forall f | f in m'
      ensures m'[f] == OfFrame(ds[..i + 1], f) && |m'[f]| > 0
    {
      if f != d.frame {
        assert m'[f] == m[f];
      }
    }
  }

  /** The mean step length of the trajectory in pixels per frame, 0 with at most one point. */
  method AverageStep(trajectory: seq<TrajectoryPoint>, dist: (Point, Point) -> real) returns (avgSpeed: real)
    requires DistanceLike(dist)
    ensures |trajectory| <= 1 ==> avgSpeed == 0.0
    ensures |trajectory| > 1 ==> avgSpeed == Mean(StepDistances(XY(trajectory), dist))
    ensures avgSpeed >= 0.0
  {
    if |trajectory| > 1 {
      var speeds: seq<real> := [];
      var i := 1;
      while i < |trajectory|
        invariant 1 <= i <= |trajectory|
        invariant |speeds| == i - 1
        invariant forall k :: 0 <= k < i - 1 ==> speeds[k] == dist(XY(trajectory)[k], XY(trajectory)[k + 1])
      {
        var p, q := Point(trajectory[i - 1].x, trajectory[i - 1].y), Point(trajectory[i].x, trajectory[i].y);
        speeds := speeds + [dist(p, q)];
        i := i + 1;
      }
      assert speeds == StepDistances(XY(trajectory), dist);
      StepsNonNegative(XY(trajectory), dist);
      avgSpeed := Mean(speeds);
    } else {
      avgSpeed := 0.0;
    }
  }

  /** The point of each listed frame, made from its most confident grouped detection. */
  method BuildTrajectory(detections: seq<Detection>, framesDict: map<nat, seq<Detection>>, frames: seq<nat>)
    returns (trajectory: seq<TrajectoryPoint>)
    requires forall d :: d in detections ==> d.bbox.Some?
    requires forall f :: f in framesDict ==> framesDict[f] == OfFrame(detections, f) && |framesDict[f]| > 0
    requires forall f :: f in frames ==> f in framesDict
    ensures |trajectory| == |frames|
    ensures forall t :: 0 <= t < |frames| ==> trajectory[t].frame == frames[t] && IsBestOfFrame(detections, trajectory[t])
  {
    trajectory := [];
    for k := 0 to |frames|
      invariant |trajectory| == k
      invariant forall t :: 0 <= t < k ==> trajectory[t].frame == frames[t] && IsBestOfFrame(detections, trajectory[t])
    {
      var frameNum := frames[k];
      // every grouped list is non-empty, so the source's `if frame_dets:` always holds
      var frameDets := framesDict[frameNum];
      var bestDet := MostConfident(frameDets);
      var bbox := bestDet.bbox.value;
      var xCenter := (bbox.x1 + bbox.x2) / 2.0;
      var yCenter := (bbox.y1 + bbox.y2) / 2.0;
      trajectory := trajectory + [TrajectoryPoint(frameNum, xCenter, yCenter, bestDet.confidence)];
    }
  }

  /**
   * A trajectory made point by point from the sorted frame list has one point
   * per detected frame, in ascending order, each as confident as any
   * detection of its frame.
   */
  lemma TrajectoryFromSortedFrames(ds: seq<Detection>, frames: seq<nat>, traj: seq<TrajectoryPoint>)
    requires forall a, b :: 0 <= a < b < |frames| ==> frames[a] < frames[b]
    requires forall f :: f in frames <==> f in FramesOf(ds)
    requires |traj| == |frames|
    requires forall t :: 0 <= t < |frames| ==> traj[t].frame == frames[t] && IsBestOfFrame(ds, traj[t])
    ensures StrictlyAscending(traj)
    ensures forall t :: 0 <= t < |traj| ==> traj[t].frame in FramesOf(ds)
    ensures forall f :: f in FramesOf(ds) ==> exists t :: 0 <= t < |traj| && traj[t].frame == f
    ensures forall t, d :: 0 <= t < |traj| && d in ds && d.frame == traj[t].frame ==> d.confidence <= traj[t].confidence
  {
    forall t, d | 0 <= t < |traj| && d in ds && d.frame == traj[t].frame
      ensures d.confidence <= traj[t].confidence
    {
      BestOfFrameIsMostConfident(ds, traj[t], d);
    }
    forall t | 0 <= t < |traj|
      ensures traj[t].frame in FramesOf(ds)
    {
      assert frames[t] in frames;
    }
    forall f | f in FramesOf(ds)
      ensures exists t :: 0 <= t < |traj| && traj[t].frame == f
    {
      var t :| 0 <= t < |frames| && frames[t] == f;
      assert traj[t].frame == f;
    }
  }

  /**
   * Builds the trajectory from the detections: one point per frame that has a
   * detection, in strictly ascending frame order, each the centre of the most
   * confident detection of its frame (the first one on ties).
   */
  method TrackBallTrajectory(detections: seq<Detection>, dist: (Point, Point) -> real) returns (r: TrackResult)
    requires forall d :: d in detections ==> d.bbox.Some?
    requires DistanceLike(dist)
    ensures StrictlyAscending(r.trajectory)
    ensures forall t :: 0 <= t < |r.trajectory| ==> r.trajectory[t].frame in FramesOf(detections)
    ensures forall f :: f in FramesOf(detections) ==> exists t :: 0 <= t < |r.trajectory| && r.trajectory[t].frame == f
    ensures forall t :: 0 <= t < |r.trajectory| ==> IsBestOfFrame(detections, r.trajectory[t])
    ensures forall t, d :: 0 <= t < |r.trajectory| && d in detections && d.frame == r.trajectory[t].frame ==>
      d.confidence <= r.trajectory[t].confidence
    ensures r.totalFramesWithBall == |r.trajectory| == |FramesOf(detections)|
    ensures |r.trajectory| <= 1 ==> r.avgSpeed == 0.0
    ensures |r.trajectory| > 1 ==> r.avgSpeed == Mean(StepDistances(XY(r.trajectory), dist))
    ensures r.avgSpeed >= 0.0
  {
    var framesDict := GroupByFrame(detections);
    var frames := SortedFrames(framesDict.Keys);
    var trajectory := BuildTrajectory(detections, framesDict, frames);
    assert forall f :: f in frames <==> f in FramesOf(detections);
    TrajectoryFromSortedFrames(detections, frames, trajectory);
    var avgSpeed := AverageStep(trajectory, dist);
    r := TrackResult(trajectory, avgSpeed, |trajectory|);
  }

  /** The contact placeholder: frames of detections above 0.7 confidence, in input order. */
  function ContactFrames(ds: seq<Detection>): seq<nat>
  {
    if |ds| == 0 then []
    else ContactFrames(ds[..|ds| - 1]) + (if ds[|ds| - 1].confidence > 0.7 then [ds[|ds| - 1].frame] else [])
  }

  lemma {:induction false} ContactFramesMembership(ds: seq<Detection>)
    ensures |ContactFrames(ds)| <= |ds|
    ensures forall f :: f in ContactFrames(ds) <==> exists d :: d in ds && d.confidence > 0.7 && d.frame == f
  {
    if |ds| > 0 {
      ContactFramesMembership(ds[..|ds| - 1]);
      assert ds == ds[..|ds| - 1] + [ds[|ds| - 1]];
    }
  }

  /** Lists, in input order and with repeats, the frames of detections more confident than 0.7. */
  method DetectBallContact(detections: seq<Detection>) returns (contactFrames: seq<nat>)
    ensures contactFrames == ContactFrames(detections)
    ensures |contactFrames| <= |detections|
    ensures forall f :: f in contactFrames <==> exists d :: d in detections && d.confidence > 0.7 && d.frame == f
  {
    contactFrames := [];
    var i := 0;
    while i < |detections|
      invariant 0 <= i <= |detections|
      invariant contactFrames == ContactFrames(detections[..i])
    {
      assert detections[..i + 1][..i] == detections[..i];
      if detections[i].confidence > 0.7 {
        contactFrames := contactFrames + [detections[i].frame];
      }
      i := i + 1;
    }
    assert detections[..i] == detections;
    ContactFramesMembership(detections);
  }
}
