/**
 * The bowling-action analysis over pose frames: which arm bowls, the elbow
 * extension, release point and front-foot landing, the swing type, the
 * bowler's own Law 21.3 / Law 24.5 checks and coaching advice, the style
 * label, the key events of the action, the ball-type flags, the overall
 * performance score and the boundary rule applied when a delivery is stored.
 * The joint angle of three landmarks and the standard deviation are
 * parameters of the operations that use them.
 */
module BowlingAnalyzer {
  import opened Common
  import BallTracking

  datatype Arm = Right | Left

  function ArmName(arm: Arm): string
  {
    match arm
    case Right => "right"
    case Left => "left"
  }

  // ---------------------------------------------------------------------
  // Bowling arm
  // ---------------------------------------------------------------------

  /** The angles of one elbow, one per frame that has metrics (0 when the angle is missing). */
  function ElbowAngles(frames: seq<PoseFrame>, key: MetricKey): (angles: seq<real>)
    ensures |angles| == |FramesWithMetrics(frames)|
  {
    if |frames| == 0 then []
    else
      var f := frames[|frames| - 1];
      ElbowAngles(frames[..|frames| - 1], key) + (if f.metrics.Some? then [Metric(f, key, 0.0)] else [])
  }

  /** The frames that carry a metrics dictionary. */
  function FramesWithMetrics(frames: seq<PoseFrame>): seq<PoseFrame>
  {
    if |frames| == 0 then []
    else
      var f := frames[|frames| - 1];
      FramesWithMetrics(frames[..|frames| - 1]) + (if f.metrics.Some? then [f] else [])
  }

  /** `max(s) - min(s)`: how far an angle series moves. */
  function MovementRange(s: seq<real>): (r: real)
    requires |s| > 0
    ensures r >= 0.0
  {
    RangeNonNegative(s);
    SeqMax(s) - SeqMin(s)
  }

  /**
   * Picks the arm with the clearly larger elbow movement: the left arm only
   * when its range exceeds 1.5 times the right arm's; the right arm otherwise,
   * including when no frame has metrics.
   */
  method DetectBowlingArm(frames: seq<PoseFrame>) returns (arm: Arm)
    ensures arm == Left <==>
      |FramesWithMetrics(frames)| > 0 &&
      MovementRange(ElbowAngles(frames, LeftElbow)) > MovementRange(ElbowAngles(frames, RightElbow)) * 1.5
  {
    var rightArmAngles: seq<real> := [];
    var leftArmAngles: seq<real> := [];
    for i := 0 to |frames|
      invariant rightArmAngles == ElbowAngles(frames[..i], RightElbow)
      invariant leftArmAngles == ElbowAngles(frames[..i], LeftElbow)
    {
      assert frames[..i + 1][..i] == frames[..i];
      var frame := frames[i];
      if frame.metrics.Some? {
        rightArmAngles := rightArmAngles + [Metric(frame, RightElbow, 0.0)];
        leftArmAngles := leftArmAngles + [Metric(frame, LeftElbow, 0.0)];
      }
    }
    assert frames[..|frames|] == frames;

    if |rightArmAngles| > 0 && |leftArmAngles| > 0 {
      var rightRange := MovementRange(rightArmAngles);
      var leftRange := MovementRange(leftArmAngles);
      if rightRange > leftRange * 1.5 {
        return Right;
      } else if leftRange > rightRange * 1.5 {
        return Left;
      }
    }
    return Right;
  }

  // ---------------------------------------------------------------------
  // Bowling metrics
  // ---------------------------------------------------------------------

  /** MediaPipe indices of the bowling side's shoulder, elbow, wrist and ankle. */
  function ShoulderIndex(arm: Arm): nat { if arm == Right then 12 else 11 }
  function ElbowIndex(arm: Arm): nat { if arm == Right then 14 else 13 }
  function WristIndex(arm: Arm): nat { if arm == Right then 16 else 15 }
  function AnkleIndex(arm: Arm): nat { if arm == Right then 28 else 27 }

  /** The largest index read for the arm (hip 24/23, knee 26/25 and ankle 28/27 included). */
  function MaxIndex(arm: Arm): (k: nat)
    ensures ShoulderIndex(arm) <= k && ElbowIndex(arm) <= k && WristIndex(arm) <= k && AnkleIndex(arm) == k
  {
    if arm == Right then 28 else 27
  }

  /** The frame has every landmark the analysis reads. */
  predicate Complete(f: PoseFrame, arm: Arm)
  {
    |f.landmarks| > MaxIndex(arm)
  }

  function ElbowAngleOf(f: PoseFrame, arm: Arm, angle: (Landmark, Landmark, Landmark) -> real): real
    requires Complete(f, arm)
  {
    angle(f.landmarks[ShoulderIndex(arm)], f.landmarks[ElbowIndex(arm)], f.landmarks[WristIndex(arm)])
  }

  /** Frame `i` lies in the last 40% of the action (`i > len(frames) * 0.6`). */
  predicate LateFrame(i: nat, n: nat)
  {
    (i as real) > (n as real) * 0.6
  }

  const ReleaseAngleLimit: real := 30.0

  datatype ElbowSample = ElbowSample(frame: nat, angle: real)
  datatype ReleaseCandidate = ReleaseCandidate(frame: nat, position: Landmark, angle: real)
  datatype FootSample = FootSample(frame: nat, yPosition: real, xPosition: real)

  /** The elbow angle of every complete frame among the first `k`. */
  function ElbowSamples(frames: seq<PoseFrame>, arm: Arm, angle: (Landmark, Landmark, Landmark) -> real, k: nat)
    : (ss: seq<ElbowSample>)
    requires k <= |frames|
    ensures |ss| <= k
  {
    if k == 0 then []
    else
      var f := frames[k - 1];
      ElbowSamples(frames, arm, angle, k - 1) + (if Complete(f, arm) then [ElbowSample(k - 1, ElbowAngleOf(f, arm, angle))] else [])
  }

  /** The complete frames among the first `k` whose elbow angle is below the release limit. */
  function ReleaseCandidates(frames: seq<PoseFrame>, arm: Arm, angle: (Landmark, Landmark, Landmark) -> real, k: nat)
    : (cs: seq<ReleaseCandidate>)
    requires k <= |frames|
    ensures |cs| <= k
  {
    if k == 0 then []
    else
      var f := frames[k - 1];
      var hit := Complete(f, arm) && ElbowAngleOf(f, arm, angle) < ReleaseAngleLimit;
      ReleaseCandidates(frames, arm, angle, k - 1)
        + (if hit then [ReleaseCandidate(k - 1, f.landmarks[WristIndex(arm)], ElbowAngleOf(f, arm, angle))] else [])
  }

  /** The ankle position of every complete late frame among the first `k`. */
  function FootSamples(frames: seq<PoseFrame>, arm: Arm, k: nat): (fs: seq<FootSample>)
    requires k <= |frames|
    ensures |fs| <= k
  {
    if k == 0 then []
    else
      var f := frames[k - 1];
      var hit := Complete(f, arm) && LateFrame(k - 1, |frames|);
      FootSamples(frames, arm, k - 1)
        + (if hit then [FootSample(k - 1, f.landmarks[AnkleIndex(arm)].y, f.landmarks[AnkleIndex(arm)].x)] else [])
  }

  /** Every elbow sample is a complete frame, with its own angle. */
  lemma {:induction false} ElbowSamplesSound(frames: seq<PoseFrame>, arm: Arm, angle: (Landmark, Landmark, Landmark) -> real, k: nat)
    requires k <= |frames|
    ensures forall s :: s in ElbowSamples(frames, arm, angle, k) ==>
      s.frame < k && Complete(frames[s.frame], arm) && s.angle == ElbowAngleOf(frames[s.frame], arm, angle)
  {
    if k > 0 {
      ElbowSamplesSound(frames, arm, angle, k - 1);
      var prev := ElbowSamples(frames, arm, angle, k - 1);
      var ss := ElbowSamples(frames, arm, angle, k);
      var f := frames[k - 1];
      assert ss == prev + (if Complete(f, arm) then [ElbowSample(k - 1, ElbowAngleOf(f, arm, angle))] else []);
      forall s | s in ss && s !in prev
        ensures s.frame == k - 1 && Complete(f, arm)
      {
      }
    }
  }

  /** Every complete frame is sampled. */
  lemma {:induction false} ElbowSamplesComplete(frames: seq<PoseFrame>, arm: Arm, angle: (Landmark, Landmark, Landmark) -> real, k: nat)
    requires k <= |frames|
    ensures forall i :: 0 <= i < k && Complete(frames[i], arm) ==>
      exists s :: s in ElbowSamples(frames, arm, angle, k) && s.frame == i
  {
    if k > 0 {
      ElbowSamplesComplete(frames, arm, angle, k - 1);
      var prev := ElbowSamples(frames, arm, angle, k - 1);
      var ss := ElbowSamples(frames, arm, angle, k);
      var f := frames[k - 1];
      assert ss == prev + (if Complete(f, arm) then [ElbowSample(k - 1, ElbowAngleOf(f, arm, angle))] else []);
      forall i | 0 <= i < k && Complete(frames[i], arm)
        ensures exists s :: s in ss && s.frame == i
      {
        if i == k - 1 {
          assert ss[|ss| - 1] in ss;
        } else {
          var s :| s in prev && s.frame == i;
          assert s in ss;
        }
      }
    }
  }

  /** Every release candidate is a complete frame below the angle limit, with its wrist. */
  lemma {:induction false} ReleaseCandidatesSound(frames: seq<PoseFrame>, arm: Arm, angle: (Landmark, Landmark, Landmark) -> real, k: nat)
    requires k <= |frames|
    ensures forall c :: c in ReleaseCandidates(frames, arm, angle, k) ==>
      c.frame < k && Complete(frames[c.frame], arm) &&
      c.angle == ElbowAngleOf(frames[c.frame], arm, angle) && c.angle < ReleaseAngleLimit &&
      c.position == frames[c.frame].landmarks[WristIndex(arm)]
  {
    if k > 0 {
      ReleaseCandidatesSound(frames, arm, angle, k - 1);
      var prev := ReleaseCandidates(frames, arm, angle, k - 1);
      var cs := ReleaseCandidates(frames, arm, angle, k);
      var f := frames[k - 1];
      var hit := Complete(f, arm) && ElbowAngleOf(f, arm, angle) < ReleaseAngleLimit;
      assert cs == prev + (if hit then [ReleaseCandidate(k - 1, f.landmarks[WristIndex(arm)], ElbowAngleOf(f, arm, angle))] else []);
      forall c | c in cs && c !in prev
        ensures c.frame == k - 1 && hit
      {
      }
    }
  }

  /** Every complete frame below the angle limit is a candidate. */
  lemma {:induction false} ReleaseCandidatesComplete(frames: seq<PoseFrame>, arm: Arm, angle: (Landmark, Landmark, Landmark) -> real, k: nat)
    requires k <= |frames|
    ensures forall i :: 0 <= i < k && Complete(frames[i], arm) && ElbowAngleOf(frames[i], arm, angle) < ReleaseAngleLimit ==>
      exists c :: c in ReleaseCandidates(frames, arm, angle, k) && c.frame == i
  {
    if k > 0 {
      ReleaseCandidatesComplete(frames, arm, angle, k - 1);
      var prev := ReleaseCandidates(frames, arm, angle, k - 1);
      var cs := ReleaseCandidates(frames, arm, angle, k);
      var f := frames[k - 1];
      var hit := Complete(f, arm) && ElbowAngleOf(f, arm, angle) < ReleaseAngleLimit;
      assert cs == prev + (if hit then [ReleaseCandidate(k - 1, f.landmarks[WristIndex(arm)], ElbowAngleOf(f, arm, angle))] else []);
      forall i | 0 <= i < k && Complete(frames[i], arm) && ElbowAngleOf(frames[i], arm, angle) < ReleaseAngleLimit
        ensures exists c :: c in cs && c.frame == i
      {
        if i == k - 1 {
          assert cs[|cs| - 1] in cs;
        } else {
          var c :| c in prev && c.frame == i;
          assert c in cs;
        }
      }
    }
  }

  /** Every foot sample is a complete late frame, with its ankle coordinates. */
  lemma {:induction false} FootSamplesSound(frames: seq<PoseFrame>, arm: Arm, k: nat)
    requires k <= |frames|
    ensures forall s :: s in FootSamples(frames, arm, k) ==>
      s.frame < k && Complete(frames[s.frame], arm) && LateFrame(s.frame, |frames|) &&
      s.yPosition == frames[s.frame].landmarks[AnkleIndex(arm)].y &&
      s.xPosition == frames[s.frame].landmarks[AnkleIndex(arm)].x
  {
    if k > 0 {
      FootSamplesSound(frames, arm, k - 1);
      var prev := FootSamples(frames, arm, k - 1);
      var fs := FootSamples(frames, arm, k);
      var f := frames[k - 1];
      var hit := Complete(f, arm) && LateFrame(k - 1, |frames|);
      assert fs == prev + (if hit then [FootSample(k - 1, f.landmarks[AnkleIndex(arm)].y, f.landmarks[AnkleIndex(arm)].x)] else []);
      forall s | s in fs && s !in prev
        ensures s.frame == k - 1 && hit
      {
      }
    }
  }

  /** Every complete late frame is sampled. */
  lemma {:induction false} FootSamplesComplete(frames: seq<PoseFrame>, arm: Arm, k: nat)
    requires k <= |frames|
    ensures forall i :: 0 <= i < k && Complete(frames[i], arm) && LateFrame(i, |frames|) ==>
      exists s :: s in FootSamples(frames, arm, k) && s.frame == i
  {
    if k > 0 {
      FootSamplesComplete(frames, arm, k - 1);
      var prev := FootSamples(frames, arm, k - 1);
      var fs := FootSamples(frames, arm, k);
      var f := frames[k - 1];
      var hit := Complete(f, arm) && LateFrame(k - 1, |frames|);
      assert fs == prev + (if hit then [FootSample(k - 1, f.landmarks[AnkleIndex(arm)].y, f.landmarks[AnkleIndex(arm)].x)] else []);
      forall i | 0 <= i < k && Complete(frames[i], arm) && LateFrame(i, |frames|)
        ensures exists s :: s in fs && s.frame == i
      {
        if i == k - 1 {
          assert fs[|fs| - 1] in fs;
        } else {
          var s :| s in prev && s.frame == i;
          assert s in fs;
        }
      }
    }
  }

  predicate CandidatesInFrameOrder(cs: seq<ReleaseCandidate>)
  {
    forall a, b :: 0 <= a < b < |cs| ==> cs[a].frame < cs[b].frame
  }

  predicate FootInFrameOrder(fs: seq<FootSample>)
  {
    forall a, b :: 0 <= a < b < |fs| ==> fs[a].frame < fs[b].frame
  }

  /** The release candidates are in strictly increasing frame order. */
  lemma {:induction false} ReleaseCandidatesOrdered(frames: seq<PoseFrame>, arm: Arm, angle: (Landmark, Landmark, Landmark) -> real, k: nat)
    requires k <= |frames|
    ensures CandidatesInFrameOrder(ReleaseCandidates(frames, arm, angle, k))
  {
    if k > 0 {
      ReleaseCandidatesOrdered(frames, arm, angle, k - 1);
      ReleaseCandidatesSound(frames, arm, angle, k - 1);
      var prev := ReleaseCandidates(frames, arm, angle, k - 1);
      var cs := ReleaseCandidates(frames, arm, angle, k);
      var f := frames[k - 1];
      var hit := Complete(f, arm) && ElbowAngleOf(f, arm, angle) < ReleaseAngleLimit;
      assert cs == prev + (if hit then [ReleaseCandidate(k - 1, f.landmarks[WristIndex(arm)], ElbowAngleOf(f, arm, angle))] else []);
      forall a, b | 0 <= a < b < |cs|
        ensures cs[a].frame < cs[b].frame
      {
        assert cs[a] == prev[a] && prev[a] in prev;
        if b < |prev| {
          assert cs[b] == prev[b];
        } else {
          assert cs[b].frame == k - 1;
        }
      }
    }
  }

  /** The foot samples are in strictly increasing frame order. */
  lemma {:induction false} FootSamplesOrdered(frames: seq<PoseFrame>, arm: Arm, k: nat)
    requires k <= |frames|
    ensures FootInFrameOrder(FootSamples(frames, arm, k))
  {
    if k > 0 {
      FootSamplesOrdered(frames, arm, k - 1);
      FootSamplesSound(frames, arm, k - 1);
      var prev := FootSamples(frames, arm, k - 1);
      var fs := FootSamples(frames, arm, k);
      var f := frames[k - 1];
      var hit := Complete(f, arm) && LateFrame(k - 1, |frames|);
      assert fs == prev + (if hit then [FootSample(k - 1, f.landmarks[AnkleIndex(arm)].y, f.landmarks[AnkleIndex(arm)].x)] else []);
      forall a, b | 0 <= a < b < |fs|
        ensures fs[a].frame < fs[b].frame
      {
        assert fs[a] == prev[a] && prev[a] in prev;
        if b < |prev| {
          assert fs[b] == prev[b];
        } else {
          assert fs[b].frame == k - 1;
        }
      }
    }
  }

  /** The single pass over the frames that collects the three sample lists. */
  method CollectSamples(frames: seq<PoseFrame>, arm: Arm, angle: (Landmark, Landmark, Landmark) -> real)
    returns (elbowAngles: seq<ElbowSample>, releasePoints: seq<ReleaseCandidate>, frontFootPositions: seq<FootSample>)
    ensures elbowAngles == ElbowSamples(frames, arm, angle, |frames|)
    ensures releasePoints == ReleaseCandidates(frames, arm, angle, |frames|)
    ensures frontFootPositions == FootSamples(frames, arm, |frames|)
  {
    elbowAngles, releasePoints, frontFootPositions := [], [], [];
    var shoulderIdx, elbowIdx, wristIdx, ankleIdx := ShoulderIndex(arm), ElbowIndex(arm), WristIndex(arm), AnkleIndex(arm);
    for i := 0 to |frames|
      invariant elbowAngles == ElbowSamples(frames, arm, angle, i)
      invariant releasePoints == ReleaseCandidates(frames, arm, angle, i)
      invariant frontFootPositions == FootSamples(frames, arm, i)
    {
      var landmarks := frames[i].landmarks;
      if |landmarks| > MaxIndex(arm) {
        var shoulder, elbow, wrist := landmarks[shoulderIdx], landmarks[elbowIdx], landmarks[wristIdx];
        var a := angle(shoulder, elbow, wrist);
        elbowAngles := elbowAngles + [ElbowSample(i, a)];
        if a < ReleaseAngleLimit {
          releasePoints := releasePoints + [ReleaseCandidate(i, wrist, a)];
        }
        if (i as real) > (|frames| as real) * 0.6 {
          var ankle := landmarks[ankleIdx];
          frontFootPositions := frontFootPositions + [FootSample(i, ankle.y, ankle.x)];
        }
      }
    }
  }

  /** The elbow angle of each sample. */
  function SampleAngles(ss: seq<ElbowSample>): seq<real>
  {
    Keys(ss, (s: ElbowSample) => s.angle)
  }

  datatype FrontFootLanding = FrontFootLanding(frame: nat, yPosition: real, xPosition: real, isNoBall: bool)

  /**
   * The metrics dictionary of a delivery; `None` is an absent key. The
   * analysis fills the first eight, the orchestration adds the rest.
   */
  datatype BowlingMetrics = BowlingMetrics(
    elbowExtension: Option<real>,
    maxElbowAngle: Option<real>,
    minElbowAngle: Option<real>,
    releasePoint: Option<Landmark>,
    releaseFrame: Option<nat>,
    frontFootLanding: Option<FrontFootLanding>,
    estimatedSpeed: Option<real>,
    accuracyScore: Option<real>,
    swingType: Option<Swing>,
    speedKmh: Option<real>,
    spinRpm: Option<real>)

  /** A front-foot landing counts as a no-ball when the ankle is beyond 0.95 of the frame width. */
  const NoBallX: real := 0.95

  /** `min(release_points, key=angle)`: the first candidate with the smallest elbow angle. */
  function BestRelease(cs: seq<ReleaseCandidate>): (best: ReleaseCandidate)
    requires |cs| > 0
    ensures exists j :: 0 <= j < |cs| && cs[j] == best && forall i :: 0 <= i < j ==> best.angle < cs[i].angle
    ensures forall c :: c in cs ==> best.angle <= c.angle
  {
    var as_ := Keys(cs, (c: ReleaseCandidate) => c.angle);
    var j := ArgMinFirst(as_);
    assert forall c :: c in cs ==> exists i :: 0 <= i < |cs| && cs[i] == c;
    cs[j]
  }

  /** `min(front_foot_positions, key=y)`: the first late sample with the lowest ankle. */
  function Landing(fs: seq<FootSample>): (l: FootSample)
    requires |fs| > 0
    ensures exists j :: 0 <= j < |fs| && fs[j] == l && forall i :: 0 <= i < j ==> l.yPosition < fs[i].yPosition
    ensures forall f :: f in fs ==> l.yPosition <= f.yPosition
  {
    var ys := Keys(fs, (f: FootSample) => f.yPosition);
    var j := ArgMinFirst(ys);
    assert forall f :: f in fs ==> exists i :: 0 <= i < |fs| && fs[i] == f;
    fs[j]
  }

  /** Among candidates in frame order, the chosen release is less bent than every earlier one. */
  lemma BestReleaseBeforeTies(cs: seq<ReleaseCandidate>)
    requires |cs| > 0
    requires CandidatesInFrameOrder(cs)
    ensures forall c :: c in cs && c.frame < BestRelease(cs).frame ==> BestRelease(cs).angle < c.angle
  {
    var best := BestRelease(cs);
    var jb :| 0 <= jb < |cs| && cs[jb] == best && forall i :: 0 <= i < jb ==> best.angle < cs[i].angle;
    forall c | c in cs && c.frame < best.frame
      ensures best.angle < c.angle
    {
      var jc :| 0 <= jc < |cs| && cs[jc] == c;
      assert jc < jb;
    }
  }

  /** Among samples in frame order, the landing is lower than every earlier sample. */
  lemma LandingBeforeTies(fs: seq<FootSample>)
    requires |fs| > 0
    requires FootInFrameOrder(fs)
    ensures forall f :: f in fs && f.frame < Landing(fs).frame ==> Landing(fs).yPosition < f.yPosition
  {
    var l := Landing(fs);
    var jl :| 0 <= jl < |fs| && fs[jl] == l && forall i :: 0 <= i < jl ==> l.yPosition < fs[i].yPosition;
    forall f | f in fs && f.frame < l.frame
      ensures l.yPosition < f.yPosition
    {
      var jf :| 0 <= jf < |fs| && fs[jf] == f;
      assert jf < jl;
    }
  }

  /** What the elbow samples say about the extension: absent without samples, else max - min >= 0. */
  lemma ElbowExtensionFacts(frames: seq<PoseFrame>, arm: Arm, angle: (Landmark, Landmark, Landmark) -> real)
    ensures var ss := ElbowSamples(frames, arm, angle, |frames|);
      (|ss| > 0 <==> exists i :: 0 <= i < |frames| && Complete(frames[i], arm)) &&
      (|ss| > 0 ==>
        var as_ := SampleAngles(ss);
        SeqMax(as_) - SeqMin(as_) >= 0.0 &&
        (forall i :: 0 <= i < |frames| && Complete(frames[i], arm) ==>
          SeqMin(as_) <= ElbowAngleOf(frames[i], arm, angle) <= SeqMax(as_)) &&
        (exists i :: 0 <= i < |frames| && Complete(frames[i], arm) && ElbowAngleOf(frames[i], arm, angle) == SeqMax(as_)) &&
        (exists i :: 0 <= i < |frames| && Complete(frames[i], arm) && ElbowAngleOf(frames[i], arm, angle) == SeqMin(as_)))
  {
    ElbowSamplesSound(frames, arm, angle, |frames|);
    ElbowSamplesComplete(frames, arm, angle, |frames|);
    var ss := ElbowSamples(frames, arm, angle, |frames|);
    if |ss| > 0 {
      var as_ := SampleAngles(ss);
      RangeNonNegative(as_);
      assert ss[0] in ss;
      forall i | 0 <= i < |frames| && Complete(frames[i], arm)
        ensures SeqMin(as_) <= ElbowAngleOf(frames[i], arm, angle) <= SeqMax(as_)
      {
        var s :| s in ss && s.frame == i;
        var j :| 0 <= j < |ss| && ss[j] == s;
        assert as_[j] == ElbowAngleOf(frames[i], arm, angle);
      }
      var jMax :| 0 <= jMax < |as_| && as_[jMax] == SeqMax(as_);
      var jMin :| 0 <= jMin < |as_| && as_[jMin] == SeqMin(as_);
      assert ss[jMax] in ss && ss[jMin] in ss;
    }
  }

  /** The chosen release is the first complete frame of smallest angle among those below the limit. */
  lemma ReleaseFacts(frames: seq<PoseFrame>, arm: Arm, angle: (Landmark, Landmark, Landmark) -> real)
    ensures var cs := ReleaseCandidates(frames, arm, angle, |frames|);
      (|cs| > 0 <==> exists i :: 0 <= i < |frames| && Complete(frames[i], arm) && ElbowAngleOf(frames[i], arm, angle) < ReleaseAngleLimit) &&
      (|cs| > 0 ==>
        var r := BestRelease(cs).frame;
        r < |frames| && Complete(frames[r], arm) && ElbowAngleOf(frames[r], arm, angle) < ReleaseAngleLimit &&
        BestRelease(cs).position == frames[r].landmarks[WristIndex(arm)] &&
        forall i :: 0 <= i < |frames| && Complete(frames[i], arm) && ElbowAngleOf(frames[i], arm, angle) < ReleaseAngleLimit ==>
          ElbowAngleOf(frames[r], arm, angle) <= ElbowAngleOf(frames[i], arm, angle))
  {
    ReleaseCandidatesSound(frames, arm, angle, |frames|);
    ReleaseCandidatesComplete(frames, arm, angle, |frames|);
    var cs := ReleaseCandidates(frames, arm, angle, |frames|);
    if |cs| > 0 {
      var best := BestRelease(cs);
      var jb :| 0 <= jb < |cs| && cs[jb] == best;
      assert best in cs;
      forall i | 0 <= i < |frames| && Complete(frames[i], arm) && ElbowAngleOf(frames[i], arm, angle) < ReleaseAngleLimit
        ensures ElbowAngleOf(frames[best.frame], arm, angle) <= ElbowAngleOf(frames[i], arm, angle)
      {
        var c :| c in cs && c.frame == i;
      }
      assert cs[0] in cs;
    }
  }

  /** On ties the release is the earliest frame: every earlier qualifying frame is more bent. */
  lemma ReleaseFirstOnTies(frames: seq<PoseFrame>, arm: Arm, angle: (Landmark, Landmark, Landmark) -> real)
    ensures var cs := ReleaseCandidates(frames, arm, angle, |frames|);
      |cs| > 0 ==>
        var r := BestRelease(cs).frame;
        r < |frames| && Complete(frames[r], arm) &&
        forall i :: 0 <= i < r && Complete(frames[i], arm) && ElbowAngleOf(frames[i], arm, angle) < ReleaseAngleLimit ==>
          ElbowAngleOf(frames[r], arm, angle) < ElbowAngleOf(frames[i], arm, angle)
  {
    ReleaseCandidatesSound(frames, arm, angle, |frames|);
    ReleaseCandidatesComplete(frames, arm, angle, |frames|);
    ReleaseCandidatesOrdered(frames, arm, angle, |frames|);
    var cs := ReleaseCandidates(frames, arm, angle, |frames|);
    if |cs| > 0 {
      var best := BestRelease(cs);
      BestReleaseBeforeTies(cs);
      assert best in cs;
      forall i | 0 <= i < best.frame && Complete(frames[i], arm) && ElbowAngleOf(frames[i], arm, angle) < ReleaseAngleLimit
        ensures best.angle < ElbowAngleOf(frames[i], arm, angle)
      {
        var c :| c in cs && c.frame == i;
      }
    }
  }

  /** The landing is the late complete frame with the lowest ankle. */
  lemma LandingFacts(frames: seq<PoseFrame>, arm: Arm)
    ensures var fs := FootSamples(frames, arm, |frames|);
      (|fs| > 0 <==> exists i :: 0 <= i < |frames| && Complete(frames[i], arm) && LateFrame(i, |frames|)) &&
      (|fs| > 0 ==>
        var l := Landing(fs);
        l.frame < |frames| && Complete(frames[l.frame], arm) && LateFrame(l.frame, |frames|) &&
        l.xPosition == frames[l.frame].landmarks[AnkleIndex(arm)].x &&
        l.yPosition == frames[l.frame].landmarks[AnkleIndex(arm)].y &&
        forall i :: 0 <= i < |frames| && Complete(frames[i], arm) && LateFrame(i, |frames|) ==>
          l.yPosition <= frames[i].landmarks[AnkleIndex(arm)].y)
  {
    FootSamplesSound(frames, arm, |frames|);
    FootSamplesComplete(frames, arm, |frames|);
    var fs := FootSamples(frames, arm, |frames|);
    if |fs| > 0 {
      var l := Landing(fs);
      var jl :| 0 <= jl < |fs| && fs[jl] == l;
      forall i | 0 <= i < |frames| && Complete(frames[i], arm) && LateFrame(i, |frames|)
        ensures l.yPosition <= frames[i].landmarks[AnkleIndex(arm)].y
      {
        var s :| s in fs && s.frame == i;
      }
      assert fs[0] in fs;
    }
  }

  /** On ties the landing is the earliest frame: every earlier late complete frame has a higher ankle. */
  lemma LandingFirstOnTies(frames: seq<PoseFrame>, arm: Arm)
    ensures var fs := FootSamples(frames, arm, |frames|);
      |fs| > 0 ==>
        var l := Landing(fs);
        forall i :: 0 <= i < l.frame && i < |frames| && Complete(frames[i], arm) && LateFrame(i, |frames|) ==>
          l.yPosition < frames[i].landmarks[AnkleIndex(arm)].y
  {
    FootSamplesSound(frames, arm, |frames|);
    FootSamplesComplete(frames, arm, |frames|);
    FootSamplesOrdered(frames, arm, |frames|);
    var fs := FootSamples(frames, arm, |frames|);
    if |fs| > 0 {
      var l := Landing(fs);
      LandingBeforeTies(fs);
      forall i | 0 <= i < l.frame && i < |frames| && Complete(frames[i], arm) && LateFrame(i, |frames|)
        ensures l.yPosition < frames[i].landmarks[AnkleIndex(arm)].y
      {
        var s :| s in fs && s.frame == i;
      }
    }
  }

  /**
   * The pose-based bowling metrics: elbow extension (max - min of the elbow
   * angles of complete frames), release point (wrist of the first frame of
   * least angle below 30 degrees), front-foot landing (lowest ankle among
   * late complete frames, a no-ball beyond x = 0.95), the placeholder speed
   * 0 and the release-consistency accuracy score.
   */
  method ExtractBowlingMetrics(frames: seq<PoseFrame>, arm: Arm,
                               angle: (Landmark, Landmark, Landmark) -> real, std: seq<real> -> real)
    returns (metrics: BowlingMetrics)
    ensures metrics.elbowExtension.Some? <==> exists i :: 0 <= i < |frames| && Complete(frames[i], arm)
    ensures metrics.elbowExtension.Some? ==>
      metrics.maxElbowAngle.Some? && metrics.minElbowAngle.Some? &&
      metrics.elbowExtension.value == metrics.maxElbowAngle.value - metrics.minElbowAngle.value &&
      metrics.elbowExtension.value >= 0.0 &&
      (forall i :: 0 <= i < |frames| && Complete(frames[i], arm) ==>
        metrics.minElbowAngle.value <= ElbowAngleOf(frames[i], arm, angle) <= metrics.maxElbowAngle.value) &&
      (exists i :: 0 <= i < |frames| && Complete(frames[i], arm) && ElbowAngleOf(frames[i], arm, angle) == metrics.maxElbowAngle.value) &&
      (exists i :: 0 <= i < |frames| && Complete(frames[i], arm) && ElbowAngleOf(frames[i], arm, angle) == metrics.minElbowAngle.value)
    ensures metrics.releaseFrame.Some? <==>
      exists i :: 0 <= i < |frames| && Complete(frames[i], arm) && ElbowAngleOf(frames[i], arm, angle) < ReleaseAngleLimit
    ensures metrics.releaseFrame.Some? ==>
      var r := metrics.releaseFrame.value;
      r < |frames| && Complete(frames[r], arm) && ElbowAngleOf(frames[r], arm, angle) < ReleaseAngleLimit &&
      metrics.releasePoint == Some(frames[r].landmarks[WristIndex(arm)]) &&
      (forall i :: 0 <= i < |frames| && Complete(frames[i], arm) && ElbowAngleOf(frames[i], arm, angle) < ReleaseAngleLimit ==>
        ElbowAngleOf(frames[r], arm, angle) <= ElbowAngleOf(frames[i], arm, angle)) &&
      forall i :: 0 <= i < r && Complete(frames[i], arm) && ElbowAngleOf(frames[i], arm, angle) < ReleaseAngleLimit ==>
        ElbowAngleOf(frames[r], arm, angle) < ElbowAngleOf(frames[i], arm, angle)
    ensures metrics.releaseFrame.None? ==> metrics.releasePoint.None?
    ensures metrics.frontFootLanding.Some? <==>
      exists i :: 0 <= i < |frames| && Complete(frames[i], arm) && LateFrame(i, |frames|)
    ensures metrics.frontFootLanding.Some? ==>
      var l := metrics.frontFootLanding.value;
      l.frame < |frames| && Complete(frames[l.frame], arm) && LateFrame(l.frame, |frames|) &&
      l.yPosition == frames[l.frame].landmarks[AnkleIndex(arm)].y &&
      l.xPosition == frames[l.frame].landmarks[AnkleIndex(arm)].x &&
      (l.isNoBall <==> l.xPosition > NoBallX) &&
      (forall i :: 0 <= i < |frames| && Complete(frames[i], arm) && LateFrame(i, |frames|) ==>
        l.yPosition <= frames[i].landmarks[AnkleIndex(arm)].y) &&
      forall i :: 0 <= i < l.frame && Complete(frames[i], arm) && LateFrame(i, |frames|) ==>
        l.yPosition < frames[i].landmarks[AnkleIndex(arm)].y
    ensures metrics.estimatedSpeed == Some(0.0)
    ensures metrics.accuracyScore.Some? && 0.0 <= metrics.accuracyScore.value <= 100.0
    ensures |ConsistencyWrists(frames, arm)| <= 2 ==> metrics.accuracyScore == Some(75.0)
    ensures |ConsistencyWrists(frames, arm)| > 2 ==>
      var ws := ConsistencyWrists(frames, arm);
      metrics.accuracyScore == Some(ClampPercent(100.0 * (1.0 - (std(Xs(ws)) + std(Ys(ws))) / 2.0)))
    ensures metrics.swingType.None? && metrics.speedKmh.None? && metrics.spinRpm.None?
  {
    var elbowAngles, releasePoints, frontFootPositions := CollectSamples(frames, arm, angle);
    ElbowExtensionFacts(frames, arm, angle);
    ReleaseFacts(frames, arm, angle);
    ReleaseFirstOnTies(frames, arm, angle);
    LandingFacts(frames, arm);
    LandingFirstOnTies(frames, arm);

    metrics := BowlingMetrics(None, None, None, None, None, None, None, None, None, None, None);

    if |elbowAngles| > 0 {
      var angles := SampleAngles(elbowAngles);
      metrics := metrics.(elbowExtension := Some(SeqMax(angles) - SeqMin(angles)),
                          maxElbowAngle := Some(SeqMax(angles)),
                          minElbowAngle := Some(SeqMin(angles)));
    }

    if |releasePoints| > 0 {
      var bestRelease := BestRelease(releasePoints);
      metrics := metrics.(releasePoint := Some(bestRelease.position), releaseFrame := Some(bestRelease.frame));
    }

    if |frontFootPositions| > 0 {
      var landing := Landing(frontFootPositions);
      metrics := metrics.(frontFootLanding :=
        Some(FrontFootLanding(landing.frame, landing.yPosition, landing.xPosition, landing.xPosition > NoBallX)));
    }

    metrics := metrics.(estimatedSpeed := Some(EstimateBowlingSpeed(frames, arm)));
    var accuracy := CalculateAccuracyScore(frames, arm, std);
    metrics := metrics.(accuracyScore := Some(accuracy));
  }

  /** Superseded by ball tracking: the pose-based speed estimate is always 0. */
  function EstimateBowlingSpeed(frames: seq<PoseFrame>, arm: Arm): (speed: real)
    ensures speed == 0.0
  {
    0.0
  }

  // ---------------------------------------------------------------------
  // Accuracy score
  // ---------------------------------------------------------------------

  /**
   * The wrists read for release consistency: frames whose right elbow angle
   * (whichever arm bowls; 180 when missing) is below 40 and whose landmark
   * list reaches the bowling wrist.
   */
  function ConsistencyWrists(frames: seq<PoseFrame>, arm: Arm): (ws: seq<Landmark>)
    ensures |ws| <= |frames|
  {
    if |frames| == 0 then []
    else
      var f := frames[|frames| - 1];
      var hit := Metric(f, RightElbow, 180.0) < 40.0 && |f.landmarks| > 0 && |f.landmarks| > WristIndex(arm);
      ConsistencyWrists(frames[..|frames| - 1], arm) + (if hit then [f.landmarks[WristIndex(arm)]] else [])
  }

  /** `v` clamped to the percentage range 0 to 100. */
  function ClampPercent(v: real): (r: real)
    ensures 0.0 <= r <= 100.0
    ensures 0.0 <= v <= 100.0 ==> r == v
    ensures v < 0.0 ==> r == 0.0
    ensures v > 100.0 ==> r == 100.0
  {
    Max(0.0, Min(100.0, v))
  }

  /**
   * Accuracy from release consistency, before rounding: 75 with at most two
   * release wrists, else 100 * (1 - (std(x) + std(y)) / 2) clamped to [0, 100].
   */
  method CalculateAccuracyScore(frames: seq<PoseFrame>, arm: Arm, std: seq<real> -> real) returns (score: real)
    ensures |ConsistencyWrists(frames, arm)| <= 2 ==> score == 75.0
    ensures |ConsistencyWrists(frames, arm)| > 2 ==>
      var ws := ConsistencyWrists(frames, arm);
      score == ClampPercent(100.0 * (1.0 - (std(Xs(ws)) + std(Ys(ws))) / 2.0))
    ensures 0.0 <= score <= 100.0
  {
    score := 75.0;
    var releasePoints: seq<Landmark> := [];
    var wristIdx := WristIndex(arm);
    for i := 0 to |frames|
      invariant releasePoints == ConsistencyWrists(frames[..i], arm)
    {
      assert frames[..i + 1][..i] == frames[..i];
      var frame := frames[i];
      if Metric(frame, RightElbow, 180.0) < 40.0 {
        var landmarks := frame.landmarks;
        if |landmarks| > 0 {
          if |landmarks| > wristIdx {
            releasePoints := releasePoints + [landmarks[wristIdx]];
          }
        }
      }
    }
    assert frames[..|frames|] == frames;

    if |releasePoints| > 2 {
      var xStd := std(Xs(releasePoints));
      var yStd := std(Ys(releasePoints));
      var consistency := 100.0 * (1.0 - (xStd + yStd) / 2.0);
      score := Max(0.0, Min(100.0, consistency));
    }
  }

  /** Perfectly repeated releases (zero spread in both axes) score the full 100. */
  lemma PerfectConsistency(frames: seq<PoseFrame>, arm: Arm, std: seq<real> -> real)
    requires |ConsistencyWrists(frames, arm)| > 2
    requires std(Xs(ConsistencyWrists(frames, arm))) == 0.0 && std(Ys(ConsistencyWrists(frames, arm))) == 0.0
    ensures ClampPercent(100.0 * (1.0 - (std(Xs(ConsistencyWrists(frames, arm))) + std(Ys(ConsistencyWrists(frames, arm)))) / 2.0)) == 100.0
  {
  }

  // ---------------------------------------------------------------------
  // Swing type
  // ---------------------------------------------------------------------

  datatype Swing = InSwing | OutSwing | Straight | UnknownSwing

  function SwingName(s: Swing): string
  {
    match s
    case InSwing => "in_swing"
    case OutSwing => "out_swing"
    case Straight => "straight"
    case UnknownSwing => "unknown"
  }

  /** The ball-trajectory rule: over 0.1 of lateral drift; towards smaller x is in-swing for a right-armer. */
  function TrajectorySwing(arm: Arm, delta: real): (s: Option<Swing>)
    ensures s.Some? <==> Abs(delta) > 0.1
    ensures s.Some? ==> s.value == (if (arm == Right && delta < 0.0) || (arm == Left && delta > 0.0) then InSwing else OutSwing)
  {
    if Abs(delta) > 0.1 then
      Some(if (arm == Right && delta < 0.0) || (arm == Left && delta > 0.0) then InSwing else OutSwing)
    else None
  }

  /** The pose rule at release: a shoulder tilt beyond 0.05 either way. */
  function TiltSwing(arm: Arm, tilt: real): (s: Swing)
    ensures s == Straight <==> -0.05 <= tilt <= 0.05
    ensures tilt > 0.05 ==> s == (if arm == Right then OutSwing else InSwing)
    ensures tilt < -0.05 ==> s == (if arm == Right then InSwing else OutSwing)
  {
    if tilt > 0.05 then (if arm == Right then OutSwing else InSwing)
    else if tilt < -0.05 then (if arm == Right then InSwing else OutSwing)
    else Straight
  }

  function Mirror(arm: Arm): Arm
  {
    if arm == Right then Left else Right
  }

  function MirrorSwing(s: Swing): Swing
  {
    match s
    case InSwing => OutSwing
    case OutSwing => InSwing
    case other => other
  }

  /** A left-armer's swing at a given drift or tilt is the mirror image of a right-armer's. */
  lemma SwingMirrorsWithArm(arm: Arm, delta: real, tilt: real)
    ensures TiltSwing(Mirror(arm), tilt) == MirrorSwing(TiltSwing(arm, tilt))
    ensures TrajectorySwing(arm, delta).Some? && delta != 0.0 ==>
      TrajectorySwing(Mirror(arm), delta) == Some(MirrorSwing(TrajectorySwing(arm, delta).value))
  {
  }

  /** A frame counts as the release frame when its right elbow angle (180 when missing) is below 40. */
  predicate IsReleaseFrame(f: PoseFrame)
  {
    Metric(f, RightElbow, 180.0) < 40.0
  }

  /** The first release frame, by a search that stops at the first hit. */
  method FindReleaseFrame(frames: seq<PoseFrame>) returns (found: Option<nat>)
    ensures found.Some? ==>
      found.value < |frames| && IsReleaseFrame(frames[found.value]) &&
      forall i :: 0 <= i < found.value ==> !IsReleaseFrame(frames[i])
    ensures found.None? ==> forall i :: 0 <= i < |frames| ==> !IsReleaseFrame(frames[i])
  {
    var i := 0;
    while i < |frames|
      invariant 0 <= i <= |frames|
      invariant forall k :: 0 <= k < i ==> !IsReleaseFrame(frames[k])
    {
      if Metric(frames[i], RightElbow, 180.0) < 40.0 {
        return Some(i);
      }
      i := i + 1;
    }
    return None;
  }

  /** Whether the trajectory dictionary is truthy, carries `points_2d` and has more than ten points there. */
  predicate LongPoints2d(t: Option<BallTrack>)
  {
    t.Some? && t.value.points2d.Some? && |t.value.points2d.value| > 10
  }

  function Drift(t: Option<BallTrack>): real
    requires LongPoints2d(t)
  {
    var ps := t.value.points2d.value;
    ps[|ps| - 1].x - ps[0].x
  }

  /**
   * The swing type: the lateral drift of a long `points_2d` trajectory
   * decides when it exceeds 0.1; otherwise fewer than ten frames give
   * "unknown", and else the shoulder tilt at the first release frame
   * (straight without one or without enough landmarks).
   */
  method DetectSwingType(frames: seq<PoseFrame>, arm: Arm, ballTrajectory: Option<BallTrack>) returns (swing: Swing)
    ensures LongPoints2d(ballTrajectory) && TrajectorySwing(arm, Drift(ballTrajectory)).Some? ==>
      swing == TrajectorySwing(arm, Drift(ballTrajectory)).value
    ensures !(LongPoints2d(ballTrajectory) && TrajectorySwing(arm, Drift(ballTrajectory)).Some?) ==>
      (swing == UnknownSwing <==> |frames| < 10)
    ensures !(LongPoints2d(ballTrajectory) && TrajectorySwing(arm, Drift(ballTrajectory)).Some?) && |frames| >= 10 ==>
      ((forall i :: 0 <= i < |frames| ==> !IsReleaseFrame(frames[i])) ==> swing == Straight)
    ensures !(LongPoints2d(ballTrajectory) && TrajectorySwing(arm, Drift(ballTrajectory)).Some?) && |frames| >= 10 ==>
      forall r :: 0 <= r < |frames| && IsReleaseFrame(frames[r]) && (forall i :: 0 <= i < r ==> !IsReleaseFrame(frames[i])) ==>
        swing == (if |frames[r].landmarks| > 12
                  then TiltSwing(arm, frames[r].landmarks[12].y - frames[r].landmarks[11].y)
                  else Straight)
  {
    if LongPoints2d(ballTrajectory) {
      var points := ballTrajectory.value.points2d.value;
      var delta := points[|points| - 1].x - points[0].x;
      if Abs(delta) > 0.1 {
        return if (arm == Right && delta < 0.0) || (arm == Left && delta > 0.0) then InSwing else OutSwing;
      }
    }

    if |frames| < 10 {
      return UnknownSwing;
    }

    var releaseFrame := FindReleaseFrame(frames);
    if releaseFrame.None? {
      return Straight;
    }

    var landmarks := frames[releaseFrame.value].landmarks;
    if |landmarks| > 12 {
      var leftShoulder, rightShoulder := landmarks[11], landmarks[12];
      var shoulderTilt := rightShoulder.y - leftShoulder.y;
      if shoulderTilt > 0.05 {
        return if arm == Right then OutSwing else InSwing;
      } else if shoulderTilt < -0.05 {
        return if arm == Right then InSwing else OutSwing;
      }
    }
    return Straight;
  }

  // ---------------------------------------------------------------------
  // ICC compliance and coaching
  // ---------------------------------------------------------------------

  const IccElbowExtensionLimit: real := 15.0

  datatype Severity = High | Medium

  datatype BowlingViolation = BowlingViolation(rule: string, severity: Severity)

  const IllegalAction := BowlingViolation("Law 21.3 - Illegal Bowling Action", High)
  const ElbowWarning := BowlingViolation("Law 21.3 - Warning", Medium)
  const NoBall := BowlingViolation("Law 24.5 - No Ball", Medium)

  /** The measured elbow extension, 0 when it was not measured. */
  function ElbowExtensionOr0(m: BowlingMetrics): real
  {
    GetOr(m.elbowExtension, 0.0)
  }

  /** Whether a front-foot landing was found and flagged as a no-ball; no landing means no no-ball. */
  predicate IsNoBall(m: BowlingMetrics)
  {
    m.frontFootLanding.Some? && m.frontFootLanding.value.isNoBall
  }

  /**
   * The analyzer's own compliance check: a high-severity entry above 15
   * degrees, a medium warning above 12 (80% of the limit, so exactly 15 is a
   * warning), then a medium no-ball entry.
   */
  method CheckIccCompliance(metrics: BowlingMetrics, arm: Arm) returns (violations: seq<BowlingViolation>)
    ensures violations ==
      (if ElbowExtensionOr0(metrics) > IccElbowExtensionLimit then [IllegalAction]
       else if ElbowExtensionOr0(metrics) > IccElbowExtensionLimit * 0.8 then [ElbowWarning]
       else [])
      + (if IsNoBall(metrics) then [NoBall] else [])
    ensures |violations| <= 2
    ensures (exists v :: v in violations && v.severity == High) <==> ElbowExtensionOr0(metrics) > 15.0
    ensures violations == [] <==> ElbowExtensionOr0(metrics) <= 12.0 && !IsNoBall(metrics)
  {
    violations := [];
    var elbowExtension := ElbowExtensionOr0(metrics);
    if elbowExtension > IccElbowExtensionLimit {
      violations := violations + [IllegalAction];
    } else if elbowExtension > IccElbowExtensionLimit * 0.8 {
      violations := violations + [ElbowWarning];
    }

    if IsNoBall(metrics) {
      violations := violations + [NoBall];
    }
  }

  datatype Advice =
    | StraighterArm | ArmBrace | ExcellentElbow
    | AdjustFrontFoot | ToeBehindCrease
    | InSwingSeam | OutSwingLate
    | IccCompliant
    | MorePace | ExcellentPace

  /** The estimated speed, 0 when it could not be estimated. */
  function SpeedOr0(m: BowlingMetrics): real
  {
    GetOr(m.estimatedSpeed, 0.0)
  }

  /** Elbow advice: a straighter arm and a brace above 12 degrees, praise below 5. */
  function ElbowAdvice(elbowExt: real): (rs: seq<Advice>)
    ensures StraighterArm in rs <==> elbowExt > 12.0
    ensures ArmBrace in rs <==> elbowExt > 12.0
    ensures ExcellentElbow in rs <==> elbowExt < 5.0
  {
    if elbowExt > 12.0 then [StraighterArm, ArmBrace]
    else if elbowExt < 5.0 then [ExcellentElbow]
    else []
  }

  /** Front-foot advice, on a no-ball only. */
  function FootAdvice(isNoBall: bool): (rs: seq<Advice>)
    ensures AdjustFrontFoot in rs <==> isNoBall
    ensures ToeBehindCrease in rs <==> isNoBall
  {
    if isNoBall then [AdjustFrontFoot, ToeBehindCrease] else []
  }

  /** Swing advice, for in- and out-swing only. */
  function SwingAdvice(swingType: Option<Swing>): (rs: seq<Advice>)
    ensures InSwingSeam in rs <==> swingType == Some(InSwing)
    ensures OutSwingLate in rs <==> swingType == Some(OutSwing)
  {
    if swingType == Some(InSwing) then [InSwingSeam]
    else if swingType == Some(OutSwing) then [OutSwingLate]
    else []
  }

  /** The compliance note, when no violation was found. */
  function ComplianceAdvice(violations: seq<BowlingViolation>): (rs: seq<Advice>)
    ensures IccCompliant in rs <==> violations == []
  {
    if violations == [] then [IccCompliant] else []
  }

  /** Pace advice for a known speed: more pace below 120 km/h, praise above 140. */
  function PaceAdvice(speed: real): (rs: seq<Advice>)
    ensures MorePace in rs <==> 0.0 < speed < 120.0
    ensures ExcellentPace in rs <==> speed > 140.0
  {
    if speed > 0.0 then
      if speed < 120.0 then [MorePace]
      else if speed > 140.0 then [ExcellentPace]
      else []
    else []
  }

  /**
   * The coaching advice: the elbow, front-foot, swing, compliance and pace
   * blocks, in the order the rules are applied.
   */
  method GenerateCoachingRecommendations(metrics: BowlingMetrics, violations: seq<BowlingViolation>)
    returns (recommendations: seq<Advice>)
    ensures recommendations ==
      ElbowAdvice(ElbowExtensionOr0(metrics)) + FootAdvice(IsNoBall(metrics)) + SwingAdvice(metrics.swingType)
      + ComplianceAdvice(violations) + PaceAdvice(SpeedOr0(metrics))
  {
    recommendations := [];

    var elbowExt := ElbowExtensionOr0(metrics);
    if elbowExt > 12.0 {
      recommendations := recommendations + [StraighterArm, ArmBrace];
    } else if elbowExt < 5.0 {
      recommendations := recommendations + [ExcellentElbow];
    }
    assert recommendations == ElbowAdvice(elbowExt);

    if IsNoBall(metrics) {
      recommendations := recommendations + [AdjustFrontFoot, ToeBehindCrease];
    }
    assert recommendations == ElbowAdvice(elbowExt) + FootAdvice(IsNoBall(metrics));

    var swingType := metrics.swingType;
    if swingType == Some(InSwing) {
      recommendations := recommendations + [InSwingSeam];
    } else if swingType == Some(OutSwing) {
      recommendations := recommendations + [OutSwingLate];
    }
    ghost var beforeCompliance := recommendations;
    assert beforeCompliance == ElbowAdvice(elbowExt) + FootAdvice(IsNoBall(metrics)) + SwingAdvice(swingType);

    if violations == [] {
      recommendations := recommendations + [IccCompliant];
    }
    ghost var beforePace := recommendations;
    assert beforePace == beforeCompliance + ComplianceAdvice(violations);

    var speed := SpeedOr0(metrics);
    if speed > 0.0 {
      if speed < 120.0 {
        recommendations := recommendations + [MorePace];
      } else if speed > 140.0 {
        recommendations := recommendations + [ExcellentPace];
      }
    }
  }

  /**
   * The compliance check followed by the advice, as the analysis runs them:
   * the advice is never empty, and states that the action is compliant
   * exactly when no rule fired.
   */
  method ComplianceAndAdvice(metrics: BowlingMetrics, arm: Arm)
    returns (violations: seq<BowlingViolation>, recommendations: seq<Advice>)
    ensures |recommendations| > 0
    ensures IccCompliant in recommendations <==> violations == []
    ensures ElbowExtensionOr0(metrics) > 12.0 || IsNoBall(metrics) ==> |recommendations| >= 2
  {
    violations := CheckIccCompliance(metrics, arm);
    recommendations := GenerateCoachingRecommendations(metrics, violations);
  }

  // ---------------------------------------------------------------------
  // Style, key events, ball type, performance, boundary
  // ---------------------------------------------------------------------

  /**
   * The style label: the arm's name, `_arm_`, then `fast` above 130 km/h,
   * `medium` above 110 and `spin` otherwise; a missing speed counts as 0.
   */
  function ClassifyBowlingStyle(metrics: BowlingMetrics, arm: Arm): (style: string)
    ensures var speed, prefix := GetOr(metrics.estimatedSpeed, 0.0), ArmName(arm) + "_arm_";
      (style == prefix + "fast" <==> speed > 130.0) &&
      (style == prefix + "medium" <==> 110.0 < speed <= 130.0) &&
      (style == prefix + "spin" <==> speed <= 110.0)
  {
    var speed := GetOr(metrics.estimatedSpeed, 0.0);
    var style := if speed > 130.0 then "fast" else if speed > 110.0 then "medium" else "spin";
    StyleSuffixesDistinct(ArmName(arm) + "_arm_");
    ArmName(arm) + "_arm_" + style
  }

  /** The three labels for one arm differ, since they differ right after the prefix. */
  lemma StyleSuffixesDistinct(prefix: string)
    ensures prefix + "fast" != prefix + "medium" && prefix + "fast" != prefix + "spin" && prefix + "medium" != prefix + "spin"
  {
    assert (prefix + "fast")[|prefix|] == 'f' && (prefix + "medium")[|prefix|] == 'm' && (prefix + "spin")[|prefix|] == 's';
  }

  /** The label is a monotone function of speed: a faster delivery never gets a slower style. */
  lemma StyleMonotone(m1: BowlingMetrics, m2: BowlingMetrics, arm: Arm)
    requires GetOr(m1.estimatedSpeed, 0.0) <= GetOr(m2.estimatedSpeed, 0.0)
    ensures ClassifyBowlingStyle(m1, arm) == ArmName(arm) + "_arm_fast" ==> ClassifyBowlingStyle(m2, arm) == ArmName(arm) + "_arm_fast"
    ensures ClassifyBowlingStyle(m2, arm) == ArmName(arm) + "_arm_spin" ==> ClassifyBowlingStyle(m1, arm) == ArmName(arm) + "_arm_spin"
  {
    var prefix := ArmName(arm) + "_arm_";
    assert prefix + "fast" == ArmName(arm) + "_arm_fast" && prefix + "spin" == ArmName(arm) + "_arm_spin";
  }

  datatype EventKind = BackFootContactEvent | FrontFootLandingEvent | BallReleaseEvent

  datatype KeyEvent = KeyEvent(frame: nat, kind: EventKind)

  function ReleaseKey(arm: Arm): MetricKey
  {
    if arm == Right then RightElbow else LeftElbow
  }

  /** Back-foot contact: within the first 30% of frames, with the right knee (180 when missing) below 100. */
  predicate BackFootAt(f: PoseFrame, i: nat, n: nat)
  {
    (i as real) < (n as real) * 0.3 && Metric(f, RightKnee, 180.0) < 100.0
  }

  /** Front-foot landing: beyond 60% of the frames, with the left knee (180 when missing) below 120. */
  predicate FrontFootAt(f: PoseFrame, i: nat, n: nat)
  {
    (i as real) > (n as real) * 0.6 && Metric(f, LeftKnee, 180.0) < 120.0
  }

  /** Ball release: the bowling elbow (180 when missing) below 35. */
  predicate ReleaseAt(f: PoseFrame, arm: Arm)
  {
    Metric(f, ReleaseKey(arm), 180.0) < 35.0
  }

  /** The events of frame `i`, in the order the checks run. */
  function EventsAt(f: PoseFrame, i: nat, n: nat, arm: Arm): (es: seq<KeyEvent>)
    ensures |es| <= 3
    ensures forall j :: 0 <= j < |es| ==> es[j].frame == i
  {
    (if BackFootAt(f, i, n) then [KeyEvent(i, BackFootContactEvent)] else [])
    + (if FrontFootAt(f, i, n) then [KeyEvent(i, FrontFootLandingEvent)] else [])
    + (if ReleaseAt(f, arm) then [KeyEvent(i, BallReleaseEvent)] else [])
  }

  /** The condition under which frame `i` of `n` reports an event of the given kind. */
  predicate EventHolds(f: PoseFrame, i: nat, n: nat, arm: Arm, kind: EventKind)
  {
    match kind
    case BackFootContactEvent => BackFootAt(f, i, n)
    case FrontFootLandingEvent => FrontFootAt(f, i, n)
    case BallReleaseEvent => ReleaseAt(f, arm)
  }

  /** A frame reports exactly the events whose conditions it meets, all stamped with its own index. */
  lemma EventsAtMembership(f: PoseFrame, i: nat, n: nat, arm: Arm)
    ensures forall e :: e in EventsAt(f, i, n, arm) <==> e.frame == i && EventHolds(f, i, n, arm, e.kind)
  {
    var es := EventsAt(f, i, n, arm);
    forall e: KeyEvent
      ensures e in es <==> e.frame == i && EventHolds(f, i, n, arm, e.kind)
    {
      if e in es {
        var j :| 0 <= j < |es| && es[j] == e;
      }
    }
  }

  /** The events of the first `k` frames. */
  function KeyEvents(frames: seq<PoseFrame>, arm: Arm, k: nat): seq<KeyEvent>
    requires k <= |frames|
  {
    if k == 0 then []
    else KeyEvents(frames, arm, k - 1) + EventsAt(frames[k - 1], k - 1, |frames|, arm)
  }

  /** Every listed event belongs to one of the first `k` frames, and events come in frame order. */
  lemma {:induction false} KeyEventsOrdered(frames: seq<PoseFrame>, arm: Arm, k: nat)
    requires k <= |frames|
    ensures forall j :: 0 <= j < |KeyEvents(frames, arm, k)| ==> KeyEvents(frames, arm, k)[j].frame < k
    ensures forall a, b :: 0 <= a < b < |KeyEvents(frames, arm, k)| ==>
      KeyEvents(frames, arm, k)[a].frame <= KeyEvents(frames, arm, k)[b].frame
  {
    if k > 0 {
      KeyEventsOrdered(frames, arm, k - 1);
      var prev := KeyEvents(frames, arm, k - 1);
      var here := EventsAt(frames[k - 1], k - 1, |frames|, arm);
      var all := prev + here;
      assert KeyEvents(frames, arm, k) == all;
      forall j | 0 <= j < |all|
        ensures all[j].frame < k
      {
        if j < |prev| {
          assert all[j] == prev[j];
        } else {
          assert all[j] == here[j - |prev|];
        }
      }
      forall a, b | 0 <= a < b < |all|
        ensures all[a].frame <= all[b].frame
      {
        if b < |prev| {
          assert all[a] == prev[a] && all[b] == prev[b];
        } else if a >= |prev| {
          assert all[a] == here[a - |prev|] && all[b] == here[b - |prev|];
        } else {
          assert all[a] == prev[a] && all[b] == here[b - |prev|];
        }
      }
    }
  }

  /** The order in which the checks of one frame run: back foot, front foot, release. */
  function KindRank(kind: EventKind): nat
  {
    match kind
    case BackFootContactEvent => 0
    case FrontFootLandingEvent => 1
    case BallReleaseEvent => 2
  }

  /** `a` is listed strictly before `b`: an earlier frame, or the same frame and an earlier check. */
  predicate ListedBefore(a: KeyEvent, b: KeyEvent)
  {
    a.frame < b.frame || (a.frame == b.frame && KindRank(a.kind) < KindRank(b.kind))
  }

  /** A frame's events follow the check order, so none is repeated. */
  lemma EventsAtInCheckOrder(f: PoseFrame, i: nat, n: nat, arm: Arm)
    ensures forall a, b :: 0 <= a < b < |EventsAt(f, i, n, arm)| ==>
      KindRank(EventsAt(f, i, n, arm)[a].kind) < KindRank(EventsAt(f, i, n, arm)[b].kind)
  {
    var back := if BackFootAt(f, i, n) then [KeyEvent(i, BackFootContactEvent)] else [];
    var front := if FrontFootAt(f, i, n) then [KeyEvent(i, FrontFootLandingEvent)] else [];
    var release := if ReleaseAt(f, arm) then [KeyEvent(i, BallReleaseEvent)] else [];
    var es := EventsAt(f, i, n, arm);
    assert es == back + front + release;
    forall a, b | 0 <= a < b < |es|
      ensures KindRank(es[a].kind) < KindRank(es[b].kind)
    {
      if a < |back| {
        assert es[a] == back[a];
      } else {
        assert es[a] == front[a - |back|];
        assert es[b] == release[b - |back| - |front|];
      }
    }
  }

  /** The events of the first `k` frames are listed in strictly increasing (frame, check) order. */
  lemma {:induction false} KeyEventsStrictlyOrdered(frames: seq<PoseFrame>, arm: Arm, k: nat)
    requires k <= |frames|
    ensures forall a, b :: 0 <= a < b < |KeyEvents(frames, arm, k)| ==>
      ListedBefore(KeyEvents(frames, arm, k)[a], KeyEvents(frames, arm, k)[b])
  {
    if k > 0 {
      KeyEventsStrictlyOrdered(frames, arm, k - 1);
      KeyEventsOrdered(frames, arm, k - 1);
      EventsAtInCheckOrder(frames[k - 1], k - 1, |frames|, arm);
      AppendFrameEvents(KeyEvents(frames, arm, k - 1), EventsAt(frames[k - 1], k - 1, |frames|, arm), k - 1);
    }
  }

  /** Appending one later frame's events, in check order, to a strictly ordered list keeps it strictly ordered. */
  lemma AppendFrameEvents(prev: seq<KeyEvent>, here: seq<KeyEvent>, i: nat)
    requires forall a, b :: 0 <= a < b < |prev| ==> ListedBefore(prev[a], prev[b])
    requires forall j :: 0 <= j < |prev| ==> prev[j].frame < i
    requires forall j :: 0 <= j < |here| ==> here[j].frame == i
    requires forall a, b :: 0 <= a < b < |here| ==> KindRank(here[a].kind) < KindRank(here[b].kind)
    ensures forall a, b :: 0 <= a < b < |prev + here| ==> ListedBefore((prev + here)[a], (prev + here)[b])
  {
    var all := prev + here;
    forall a, b | 0 <= a < b < |all|
      ensures ListedBefore(all[a], all[b])
    {
      if b < |prev| {
        assert all[a] == prev[a] && all[b] == prev[b];
      } else if a >= |prev| {
        assert all[a] == here[a - |prev|] && all[b] == here[b - |prev|];
      } else {
        assert all[a] == prev[a] && all[b] == here[b - |prev|];
      }
    }
  }

  /** Event `e` is one of the first `k` frames' events: its frame is among them and meets the event's condition. */
  predicate OccursWithin(frames: seq<PoseFrame>, arm: Arm, k: nat, e: KeyEvent)
    requires k <= |frames|
  {
    e.frame < k && e in EventsAt(frames[e.frame], e.frame, |frames|, arm)
  }

  /** Membership in the events of the first `k` frames, one frame at a time. */
  lemma StepMembership(frames: seq<PoseFrame>, arm: Arm, k: nat, e: KeyEvent)
    requires 0 < k <= |frames|
    requires e in KeyEvents(frames, arm, k - 1) <==> OccursWithin(frames, arm, k - 1, e)
    ensures e in KeyEvents(frames, arm, k) <==> OccursWithin(frames, arm, k, e)
  {
    var prev := KeyEvents(frames, arm, k - 1);
    var here := EventsAt(frames[k - 1], k - 1, |frames|, arm);
    assert KeyEvents(frames, arm, k) == prev + here;
    assert e in prev + here <==> e in prev || e in here;
    if e.frame == k - 1 {
      assert !OccursWithin(frames, arm, k - 1, e);
    } else {
      assert e !in here;
    }
  }

  /** An event is listed exactly when its frame is among the first `k` and reports it. */
  lemma KeyEventsMembership(frames: seq<PoseFrame>, arm: Arm, k: nat)
    requires k <= |frames|
    ensures forall e :: e in KeyEvents(frames, arm, k) <==> OccursWithin(frames, arm, k, e)
  {
    MembershipUpToHolds(frames, arm, k);
  }

  /** The events of the first `k` frames are exactly those that occur within them. */
  ghost predicate MembershipUpTo(frames: seq<PoseFrame>, arm: Arm, k: nat)
    requires k <= |frames|
  {
    forall e :: e in KeyEvents(frames, arm, k) <==> OccursWithin(frames, arm, k, e)
  }

  lemma {:induction false} MembershipUpToHolds(frames: seq<PoseFrame>, arm: Arm, k: nat)
    requires k <= |frames|
    ensures MembershipUpTo(frames, arm, k)
  {
    if k > 0 {
      MembershipUpToHolds(frames, arm, k - 1);
      StepMembershipAll(frames, arm, k);
    }
  }

  /** One more frame keeps the membership characterisation, for every event at once. */
  lemma StepMembershipAll(frames: seq<PoseFrame>, arm: Arm, k: nat)
    requires 0 < k <= |frames|
    requires MembershipUpTo(frames, arm, k - 1)
    ensures MembershipUpTo(frames, arm, k)
  {
    forall e: KeyEvent {
      StepMembership(frames, arm, k, e);
    }
  }

  /** Lists the key events frame by frame. */
  method DetectKeyEvents(frames: seq<PoseFrame>, arm: Arm) returns (events: seq<KeyEvent>)
    ensures forall e :: e in events <==> e.frame < |frames| && EventHolds(frames[e.frame], e.frame, |frames|, arm, e.kind)
    ensures forall a, b :: 0 <= a < b < |events| ==> events[a].frame <= events[b].frame
    ensures forall a, b :: 0 <= a < b < |events| ==> ListedBefore(events[a], events[b]) && events[a] != events[b]
    ensures events == KeyEvents(frames, arm, |frames|)
  {
    events := [];
    var n := |frames|;
    for i := 0 to n
      invariant events == KeyEvents(frames, arm, i)
    {
      var metrics := frames[i];
      if (i as real) < (n as real) * 0.3 && Metric(metrics, RightKnee, 180.0) < 100.0 {
        events := events + [KeyEvent(i, BackFootContactEvent)];
      }
      if (i as real) > (n as real) * 0.6 && Metric(metrics, LeftKnee, 180.0) < 120.0 {
        events := events + [KeyEvent(i, FrontFootLandingEvent)];
      }
      var elbowKey := ReleaseKey(arm);
      if Metric(metrics, elbowKey, 180.0) < 35.0 {
        events := events + [KeyEvent(i, BallReleaseEvent)];
      }
    }
    KeyEventsOrdered(frames, arm, n);
    KeyEventsStrictlyOrdered(frames, arm, n);
    KeyEventsMembership(frames, arm, n);
    forall e: KeyEvent | e.frame < n
      ensures e in EventsAt(frames[e.frame], e.frame, n, arm) <==> EventHolds(frames[e.frame], e.frame, n, arm, e.kind)
    {
      EventsAtMembership(frames[e.frame], e.frame, n, arm);
    }
  }

  /** The analyzer's ball type: read from `points_2d` only; all flags false without ten points there. */
  function ClassifyBallType(trajectory: Option<BallTrack>, speed: real): (b: BallTracking.BallType)
    ensures BallTracking.AtMostOneFlag(b)
    ensures (trajectory.None? || trajectory.value.points2d.None? || |trajectory.value.points2d.value| < 10) ==>
      b == BallTracking.NoBallType
    ensures trajectory.Some? && trajectory.value.points2d.Some? && |trajectory.value.points2d.value| >= 10 ==>
      b == BallTracking.BallTypeOf(BallTracking.MinHeightAfterRelease(trajectory.value.points2d.value))
  {
    if trajectory.None? || trajectory.value.points2d.None? then BallTracking.NoBallType
    else
      var points := trajectory.value.points2d.value;
      if |points| < 10 then BallTracking.NoBallType
      else BallTracking.BallTypeOf(BallTracking.MinHeightAfterRelease(points))
  }

  /** On a trajectory with at least ten `points_2d`, the analyzer and the tracking endpoint agree. */
  lemma BallTypeAgreesWithEndpoint(t: BallTrack, speed: real)
    requires t.points2d.Some? && |t.points2d.value| >= 10
    ensures ClassifyBallType(Some(t), speed) == BallTracking.ClassifyBallType(t, speed)
  {
  }

  /** The two classifiers differ when only the `trajectory` schema is present. */
  lemma BallTypeIgnoresTrajectoryKey(t: BallTrack, speed: real)
    requires t.points2d.None? && t.trajectory.Some? && |t.trajectory.value| >= 10
    requires forall i :: 5 <= i < |t.trajectory.value| ==> t.trajectory.value[i].y > 0.8
    ensures ClassifyBallType(Some(t), speed) == BallTracking.NoBallType
    ensures BallTracking.ClassifyBallType(t, speed).isBouncer
  {
    BallTracking.BouncerIffAllHigh(t, speed);
  }

  /**
   * Overall score before rounding: speed (150 km/h earns the full 40),
   * 40% of accuracy, spin (1000 rpm earns the full 20), capped at 100.
   * Defaults: speed 0, accuracy 50, spin 0.
   */
  function CalculatePerformanceScore(metrics: BowlingMetrics): (score: real)
    ensures score <= 100.0
    ensures var speed, accuracy, spin := GetOr(metrics.speedKmh, 0.0), GetOr(metrics.accuracyScore, 50.0), GetOr(metrics.spinRpm, 0.0);
      speed >= 0.0 && spin >= 0.0 && accuracy >= 0.0 ==> score >= 0.0
    ensures var speed, accuracy, spin := GetOr(metrics.speedKmh, 0.0), GetOr(metrics.accuracyScore, 50.0), GetOr(metrics.spinRpm, 0.0);
      score == Min(Min(speed / 150.0 * 40.0, 40.0) + accuracy * 0.4 + Min(spin / 1000.0 * 20.0, 20.0), 100.0)
  {
    var speed := GetOr(metrics.speedKmh, 0.0);
    var accuracy := GetOr(metrics.accuracyScore, 50.0);
    var spin := GetOr(metrics.spinRpm, 0.0);
    var speedScore := Min(speed / 150.0 * 40.0, 40.0);
    var accuracyScore := accuracy * 0.4;
    var spinScore := Min(spin / 1000.0 * 20.0, 20.0);
    Min(speedScore + accuracyScore + spinScore, 100.0)
  }

  /** A faster ball never lowers the performance score, all else equal. */
  lemma PerformanceMonotoneInSpeed(m: BowlingMetrics, faster: real)
    requires GetOr(m.speedKmh, 0.0) <= faster
    ensures CalculatePerformanceScore(m) <= CalculatePerformanceScore(m.(speedKmh := Some(faster)))
  {
  }

  /** With accuracy at most 100, a score of 100 needs at least 150 km/h. */
  lemma FullScoreNeedsFullPace(m: BowlingMetrics)
    requires GetOr(m.accuracyScore, 50.0) <= 100.0
    requires GetOr(m.speedKmh, 0.0) < 150.0
    ensures CalculatePerformanceScore(m) < 100.0
  {
  }

  datatype Outcome = Outcome(isBoundary: bool, boundaryType: Option<string>, runs: nat)

  /**
   * The boundary rule of a stored delivery: a final position near either
   * side edge (x < 0.1 or x > 0.9) or the far end (y < 0.1) is a boundary,
   * a six when y < 0.2 and a four otherwise.
   */
  function BoundaryOf(finalPosition: Option<Point>): (o: Outcome)
    ensures o.isBoundary <==>
      finalPosition.Some? &&
      (finalPosition.value.x < 0.1 || finalPosition.value.x > 0.9 || finalPosition.value.y < 0.1)
    ensures o.runs == 0 <==> !o.isBoundary
    ensures o.boundaryType.None? <==> !o.isBoundary
    ensures o.runs == 6 <==> o.boundaryType == Some("six")
    ensures o.runs == 6 <==> o.isBoundary && finalPosition.value.y < 0.2
    ensures o.runs == 4 <==> o.boundaryType == Some("four")
    ensures o.runs == 4 <==> o.isBoundary && finalPosition.value.y >= 0.2
    ensures o.runs in {0, 4, 6}
  {
    if finalPosition.Some? then
      var final := finalPosition.value;
      if final.x < 0.1 || final.x > 0.9 || final.y < 0.1 then
        if final.y < 0.2 then Outcome(true, Some("six"), 6) else Outcome(true, Some("four"), 4)
      else Outcome(false, None, 0)
    else Outcome(false, None, 0)
  }

  /** Every boundary through the far end (y < 0.1) is a six. */
  lemma FarEndBoundaryIsSix(p: Point)
    requires p.y < 0.1
    ensures BoundaryOf(Some(p)) == Outcome(true, Some("six"), 6)
  {
  }
}
