/**
 * The batting analysis over pose frames: the proportional split of a clip
 * into stance, backlift, shot execution and follow-through, the stance read
 * from the shoulders of the first stance frame, head stillness from the
 * spread of the nose positions, the placeholder bat angle and weight split,
 * and the coaching advice. The standard deviation is a parameter.
 */
module BattingAnalyzer {
  import opened Common
  import IccStandards

  // ---------------------------------------------------------------------
  // Phases
  // ---------------------------------------------------------------------

  datatype Phase = Stance | Backlift | ShotExecution | FollowThrough

  /** The phase of frame `i` of `n`: cut at 30%, 60% and 90% of the clip. */
  function PhaseOf(i: nat, n: nat): (p: Phase)
    ensures p == Stance <==> (i as real) < (n as real) * 0.3
    ensures p == Backlift <==> (n as real) * 0.3 <= (i as real) < (n as real) * 0.6
    ensures p == ShotExecution <==> (n as real) * 0.6 <= (i as real) < (n as real) * 0.9
    ensures p == FollowThrough <==> (i as real) >= (n as real) * 0.9
  {
    if (i as real) < (n as real) * 0.3 then Stance
    else if (i as real) < (n as real) * 0.6 then Backlift
    else if (i as real) < (n as real) * 0.9 then ShotExecution
    else FollowThrough
  }

  /** The phase cuts never go backwards: a later frame is never in an earlier phase. */
  lemma PhaseMonotone(i: nat, j: nat, n: nat)
    requires i <= j
    ensures PhaseRank(PhaseOf(i, n)) <= PhaseRank(PhaseOf(j, n))
  {
  }

  function PhaseRank(p: Phase): nat
  {
    match p
    case Stance => 0
    case Backlift => 1
    case ShotExecution => 2
    case FollowThrough => 3
  }

  /** The indices below `k` that fall in phase `p` of an `n`-frame clip, in order. */
  function PhaseIndices(n: nat, p: Phase, k: nat): seq<nat>
  {
    if k == 0 then []
    else PhaseIndices(n, p, k - 1) + (if PhaseOf(k - 1, n) == p then [k - 1] else [])
  }

  predicate StrictlyIncreasing(s: seq<nat>)
  {
    forall a, b :: 0 <= a < b < |s| ==> s[a] < s[b]
  }

  /** Phase `p`'s list holds exactly the indices below `k` in that phase, in strictly increasing order. */
  lemma {:induction false} PhaseIndicesFacts(n: nat, p: Phase, k: nat)
    ensures forall i: nat :: i in PhaseIndices(n, p, k) <==> i < k && PhaseOf(i, n) == p
    ensures forall j :: 0 <= j < |PhaseIndices(n, p, k)| ==> PhaseIndices(n, p, k)[j] < k
    ensures StrictlyIncreasing(PhaseIndices(n, p, k))
  {
    if k > 0 {
      PhaseIndicesFacts(n, p, k - 1);
      var prev := PhaseIndices(n, p, k - 1);
      var all := PhaseIndices(n, p, k);
      assert all == prev + (if PhaseOf(k - 1, n) == p then [k - 1] else []);
      forall j | 0 <= j < |all|
        ensures all[j] < k
      {
        if j < |prev| {
          assert all[j] == prev[j];
        }
      }
      forall a, b | 0 <= a < b < |all|
        ensures all[a] < all[b]
      {
        if b < |prev| {
          assert all[a] == prev[a] && all[b] == prev[b];
        } else {
          assert all[a] == prev[a] && all[b] == k - 1;
        }
      }
    }
  }

  /** The four lists together hold every index below `k` once: their lengths add up to `k`. */
  lemma {:induction false} PhaseCountsAddUp(n: nat, k: nat)
    ensures |PhaseIndices(n, Stance, k)| + |PhaseIndices(n, Backlift, k)|
      + |PhaseIndices(n, ShotExecution, k)| + |PhaseIndices(n, FollowThrough, k)| == k
  {
    if k > 0 {
      PhaseCountsAddUp(n, k - 1);
    }
  }

  datatype Phases = Phases(stance: seq<nat>, backlift: seq<nat>, shotExecution: seq<nat>, followThrough: seq<nat>)

  function PhaseList(phases: Phases, p: Phase): seq<nat>
  {
    match p
    case Stance => phases.stance
    case Backlift => phases.backlift
    case ShotExecution => phases.shotExecution
    case FollowThrough => phases.followThrough
  }

  /**
   * Splits the clip into its four phases: every frame index lands in exactly
   * the list of its phase, each list ascending, and the lists together hold
   * every index once.
   */
  method DetectBattingPhases(frames: seq<PoseFrame>) returns (phases: Phases)
    ensures forall p, i: nat :: i in PhaseList(phases, p) <==> i < |frames| && PhaseOf(i, |frames|) == p
    ensures forall p :: StrictlyIncreasing(PhaseList(phases, p))
    ensures |phases.stance| + |phases.backlift| + |phases.shotExecution| + |phases.followThrough| == |frames|
  {
    var n := |frames|;
    phases := SplitPhases(n);
    PhaseIndicesFacts(n, Stance, n);
    PhaseIndicesFacts(n, Backlift, n);
    PhaseIndicesFacts(n, ShotExecution, n);
    PhaseIndicesFacts(n, FollowThrough, n);
    PhaseCountsAddUp(n, n);
    assert forall p :: PhaseList(phases, p) == PhaseIndices(n, p, n);
  }

  /** The loop over the frame indices, appending each to the list of its phase. */
  method SplitPhases(n: nat) returns (phases: Phases)
    ensures phases.stance == PhaseIndices(n, Stance, n)
    ensures phases.backlift == PhaseIndices(n, Backlift, n)
    ensures phases.shotExecution == PhaseIndices(n, ShotExecution, n)
    ensures phases.followThrough == PhaseIndices(n, FollowThrough, n)
  {
    phases := Phases([], [], [], []);
    for i := 0 to n
      invariant phases.stance == PhaseIndices(n, Stance, i)
      invariant phases.backlift == PhaseIndices(n, Backlift, i)
      invariant phases.shotExecution == PhaseIndices(n, ShotExecution, i)
      invariant phases.followThrough == PhaseIndices(n, FollowThrough, i)
    {
      if (i as real) < (n as real) * 0.3 {
        phases := phases.(stance := phases.stance + [i]);
      } else if (i as real) < (n as real) * 0.6 {
        phases := phases.(backlift := phases.backlift + [i]);
      } else if (i as real) < (n as real) * 0.9 {
        phases := phases.(shotExecution := phases.shotExecution + [i]);
      } else {
        phases := phases.(followThrough := phases.followThrough + [i]);
      }
    }
  }

  // ---------------------------------------------------------------------
  // Stance, head, bat and weight
  // ---------------------------------------------------------------------

  datatype StanceType = UnknownStance | OpenStance | ClosedStance | SquareStance

  function StanceLabel(s: StanceType): string
  {
    match s
    case UnknownStance => "unknown"
    case OpenStance => "open_stance"
    case ClosedStance => "closed_stance"
    case SquareStance => "square_stance"
  }

  /**
   * `[frames[i] for i in indices if i < len(frames)]`: the frames at the
   * in-range indices, in index-list order; an out-of-range index is skipped.
   */
  function SelectFrames(frames: seq<PoseFrame>, indices: seq<nat>): (selected: seq<PoseFrame>)
    ensures |selected| <= |indices|
    ensures |indices| > 0 && indices[0] < |frames| ==> |selected| > 0 && selected[0] == frames[indices[0]]
    ensures |selected| == |InRange(indices, |frames|)|
    ensures forall j :: 0 <= j < |selected| ==> selected[j] == frames[InRange(indices, |frames|)[j]]
    ensures (forall j :: 0 <= j < |indices| ==> indices[j] < |frames|) ==>
      |selected| == |indices| && forall j :: 0 <= j < |indices| ==> selected[j] == frames[indices[j]]
  {
    if |indices| == 0 then []
    else (if indices[0] < |frames| then [frames[indices[0]]] else []) + SelectFrames(frames, indices[1..])
  }

  /** The indices below `n`, in list order. */
  function InRange(indices: seq<nat>, n: nat): (kept: seq<nat>)
    ensures |kept| <= |indices|
    ensures forall j :: 0 <= j < |kept| ==> kept[j] < n
    ensures forall i :: i in kept <==> i in indices && i < n
    ensures (forall j :: 0 <= j < |indices| ==> indices[j] < n) ==> kept == indices
  {
    if |indices| == 0 then []
    else (if indices[0] < n then [indices[0]] else []) + InRange(indices[1..], n)
  }

  /**
   * The stance from the shoulders of the first frame: unknown without frames
   * or without the shoulder landmarks, open when the left shoulder is more
   * than 0.05 to the right of the right one, closed when more than 0.05 to
   * the left, square otherwise.
   */
  function AnalyzeStance(frames: seq<PoseFrame>): (s: StanceType)
    ensures s == UnknownStance <==> |frames| == 0 || |frames[0].landmarks| < 13
    ensures s == OpenStance <==>
      |frames| > 0 && |frames[0].landmarks| >= 13 && frames[0].landmarks[11].x - frames[0].landmarks[12].x > 0.05
    ensures s == ClosedStance <==>
      |frames| > 0 && |frames[0].landmarks| >= 13 && frames[0].landmarks[11].x - frames[0].landmarks[12].x < -0.05
    ensures s == SquareStance <==>
      |frames| > 0 && |frames[0].landmarks| >= 13 && -0.05 <= frames[0].landmarks[11].x - frames[0].landmarks[12].x <= 0.05
  {
    if |frames| == 0 then UnknownStance
    else
      var landmarks := frames[0].landmarks;
      if |landmarks| < 13 then UnknownStance
      else
        var shoulderDiff := landmarks[11].x - landmarks[12].x;
        if shoulderDiff > 0.05 then OpenStance
        else if shoulderDiff < -0.05 then ClosedStance
        else SquareStance
  }

  /** Mirroring the shoulders swaps open and closed and keeps square and unknown. */
  lemma StanceMirror(f: PoseFrame, g: PoseFrame)
    requires |f.landmarks| >= 13 && |g.landmarks| >= 13
    requires g.landmarks[11].x - g.landmarks[12].x == -(f.landmarks[11].x - f.landmarks[12].x)
    ensures AnalyzeStance([f]) == OpenStance <==> AnalyzeStance([g]) == ClosedStance
    ensures AnalyzeStance([f]) == SquareStance <==> AnalyzeStance([g]) == SquareStance
  {
  }

  /** The analyzer's labels carry a `_stance` suffix, so the shoulder-angle table never recognises them. */
  lemma StanceLabelsNeverTriggerShoulderWarning(s: StanceType, angle: real)
    ensures !IccStandards.ShoulderOutOfRange(StanceLabel(s), angle)
  {
    var name := StanceLabel(s);
    assert |name| == 7 || |name| >= 11;
  }

  /** The nose (landmark 0) of every frame that has landmarks, in frame order. */
  function NosePositions(frames: seq<PoseFrame>): (noses: seq<Landmark>)
    ensures |noses| <= |frames|
  {
    if |frames| == 0 then []
    else
      var f := frames[|frames| - 1];
      NosePositions(frames[..|frames| - 1]) + (if |f.landmarks| > 0 then [f.landmarks[0]] else [])
  }

  /** What the model assumes of the standard deviation it is given: never negative. */
  ghost predicate SpreadLike(std: seq<real> -> real)
  {
    forall s :: std(s) >= 0.0
  }

  datatype HeadPosition = HeadPosition(stillness: real, movement: real)

  /**
   * Head stillness: with no nose positions both figures are 0; otherwise the
   * movement is the sum of the per-axis spreads and stillness is 10 minus
   * the movement, floored at 0.
   */
  function HeadMovement(frames: seq<PoseFrame>, std: seq<real> -> real): (h: HeadPosition)
    ensures |NosePositions(frames)| == 0 ==> h == HeadPosition(0.0, 0.0)
    ensures |NosePositions(frames)| > 0 ==>
      h.movement == std(Xs(NosePositions(frames))) + std(Ys(NosePositions(frames)))
    ensures h.stillness >= 0.0
    ensures h.stillness + h.movement >= 10.0 || |NosePositions(frames)| == 0
    ensures |NosePositions(frames)| > 0 ==> (h.stillness == 0.0 <==> h.movement >= 10.0)
    ensures |NosePositions(frames)| > 0 && h.movement <= 10.0 ==> h.stillness == 10.0 - h.movement
    ensures SpreadLike(std) ==> h.stillness <= 10.0 && h.movement >= 0.0
  {
    var noses := NosePositions(frames);
    if |noses| == 0 then HeadPosition(0.0, 0.0)
    else
      var movement := std(Xs(noses)) + std(Ys(noses));
      HeadPosition(Max(0.0, 10.0 - movement), movement)
  }

  /** More movement never means more stillness. */
  lemma StillnessAntitone(m1: real, m2: real)
    requires m1 <= m2
    ensures Max(0.0, 10.0 - m2) <= Max(0.0, 10.0 - m1)
  {
  }

  /** Collects the nose positions frame by frame and scores head stillness. */
  method AnalyzeHeadMovement(frames: seq<PoseFrame>, std: seq<real> -> real) returns (head: HeadPosition)
    ensures head == HeadMovement(frames, std)
  {
    var headPositions: seq<Landmark> := [];
    for i := 0 to |frames|
      invariant headPositions == NosePositions(frames[..i])
    {
      assert frames[..i + 1][..i] == frames[..i];
      var landmarks := frames[i].landmarks;
      if |landmarks| > 0 {
        headPositions := headPositions + [landmarks[0]];
      }
    }
    assert frames[..|frames|] == frames;

    if |headPositions| == 0 {
      return HeadPosition(0.0, 0.0);
    }
    var movement := std(Xs(headPositions)) + std(Ys(headPositions));
    var stillness := Max(0.0, 10.0 - movement);
    head := HeadPosition(stillness, movement);
  }

  /** Placeholder bat angle: 0 without frames, otherwise 25 degrees. */
  function CalculateBatAngle(frames: seq<PoseFrame>): (angle: real)
    ensures angle == 0.0 <==> |frames| == 0
    ensures |frames| > 0 ==> angle == 25.0
  {
    if |frames| == 0 then 0.0 else 25.0
  }

  datatype WeightDistribution = WeightDistribution(frontFoot: real, backFoot: real, balanceScore: real)

  /** Placeholder weight split: 45% front, 55% back, balance 8.5, whatever the frames. */
  function CalculateWeightDistribution(frames: seq<PoseFrame>): (w: WeightDistribution)
    ensures w.frontFoot + w.backFoot == 100.0
    ensures w.frontFoot == 45.0 && w.balanceScore == 8.5
  {
    WeightDistribution(45.0, 55.0, 8.5)
  }

  /** The batting metrics dictionary; `None` is an absent key. */
  datatype BattingMetrics = BattingMetrics(
    stanceType: Option<StanceType>,
    weightDistribution: Option<WeightDistribution>,
    batAngle: Option<real>,
    headPosition: Option<HeadPosition>)

  /** The metrics of a clip: stance from the stance-phase frames, the rest from all frames. */
  method CalculateBattingMetrics(frames: seq<PoseFrame>, phases: Phases, std: seq<real> -> real)
    returns (metrics: BattingMetrics)
    ensures metrics.stanceType == Some(AnalyzeStance(SelectFrames(frames, phases.stance)))
    ensures metrics.weightDistribution == Some(CalculateWeightDistribution(frames))
    ensures metrics.batAngle == Some(CalculateBatAngle(frames))
    ensures metrics.headPosition == Some(HeadMovement(frames, std))
  {
    var stanceFrames := SelectFrames(frames, phases.stance);
    metrics := BattingMetrics(Some(AnalyzeStance(stanceFrames)), None, None, None);
    metrics := metrics.(weightDistribution := Some(CalculateWeightDistribution(frames)));
    metrics := metrics.(batAngle := Some(CalculateBatAngle(frames)));
    var head := AnalyzeHeadMovement(frames, std);
    metrics := metrics.(headPosition := Some(head));
  }

  // ---------------------------------------------------------------------
  // Recommendations
  // ---------------------------------------------------------------------

  datatype BattingAdvice = GuardOffStump | WatchLbw | MoreFrontFootWeight | KeepHeadStill | GoodHeadPosition

  /** The share of weight on the front foot, 50% when no weight split was recorded. */
  function FrontWeight(m: BattingMetrics): real
  {
    if m.weightDistribution.Some? then m.weightDistribution.value.frontFoot else 50.0
  }

  /** The stillness score of the head, 0 when no head movement was recorded. */
  function Stillness(m: BattingMetrics): real
  {
    if m.headPosition.Some? then m.headPosition.value.stillness else 0.0
  }

  /**
   * The batting advice: a stance note for open and closed stances, a
   * weight note below 40% on the front foot, and always a closing note on
   * the head.
   */
  method GenerateBattingRecommendations(metrics: BattingMetrics) returns (recommendations: seq<BattingAdvice>)
    ensures |recommendations| ==
      (if metrics.stanceType == Some(OpenStance) || metrics.stanceType == Some(ClosedStance) then 1 else 0) +
      (if FrontWeight(metrics) < 40.0 then 1 else 0) + 1
    ensures metrics.stanceType == Some(OpenStance) ==> recommendations[0] == GuardOffStump
    ensures metrics.stanceType == Some(ClosedStance) ==> recommendations[0] == WatchLbw
    ensures FrontWeight(metrics) < 40.0 ==> recommendations[|recommendations| - 2] == MoreFrontFootWeight
    ensures recommendations[|recommendations| - 1] == (if Stillness(metrics) < 5.0 then KeepHeadStill else GoodHeadPosition)
    ensures GuardOffStump in recommendations <==> metrics.stanceType == Some(OpenStance)
    ensures WatchLbw in recommendations <==> metrics.stanceType == Some(ClosedStance)
    ensures MoreFrontFootWeight in recommendations <==> FrontWeight(metrics) < 40.0
    ensures KeepHeadStill in recommendations <==> Stillness(metrics) < 5.0
    ensures GoodHeadPosition in recommendations <==> Stillness(metrics) >= 5.0
  {
    recommendations := [];

    var stance := metrics.stanceType;
    if stance == Some(OpenStance) {
      recommendations := recommendations + [GuardOffStump];
    } else if stance == Some(ClosedStance) {
      recommendations := recommendations + [WatchLbw];
    }
    ghost var stancePart := recommendations;
    assert forall a :: a in stancePart ==> a == GuardOffStump || a == WatchLbw;

    var frontWeight := FrontWeight(metrics);
    if frontWeight < 40.0 {
      recommendations := recommendations + [MoreFrontFootWeight];
    }
    ghost var weightPart := recommendations;
    assert forall a :: a in weightPart ==> a == GuardOffStump || a == WatchLbw || a == MoreFrontFootWeight;

    if Stillness(metrics) < 5.0 {
      recommendations := recommendations + [KeepHeadStill];
    } else {
      recommendations := recommendations + [GoodHeadPosition];
    }
  }

  /**
   * The analysis of a clip after pose detection: phases, metrics and advice.
   * The stance is read from the clip's first frame, the placeholder weight
   * split never draws the weight note, and the advice ends with the head note.
   */
  method AnalyzeBatting(frames: seq<PoseFrame>, std: seq<real> -> real)
    returns (phases: Phases, metrics: BattingMetrics, recommendations: seq<BattingAdvice>)
    ensures metrics.stanceType == Some(AnalyzeStance(frames))
    ensures MoreFrontFootWeight !in recommendations
    ensures |recommendations| > 0 &&
      recommendations[|recommendations| - 1] == (if HeadMovement(frames, std).stillness < 5.0 then KeepHeadStill else GoodHeadPosition)
    ensures |NosePositions(frames)| == 0 ==> KeepHeadStill in recommendations
  {
    phases := DetectBattingPhases(frames);
    metrics := CalculateBattingMetrics(frames, phases, std);
    recommendations := GenerateBattingRecommendations(metrics);
    if |frames| > 0 {
      assert PhaseOf(0, |frames|) == Stance;
      assert 0 in PhaseList(phases, Stance);
      StanceFramesStartAtZero(phases.stance);
    }
  }

  /** A strictly increasing list of naturals that contains 0 starts with 0. */
  lemma StanceFramesStartAtZero(indices: seq<nat>)
    requires StrictlyIncreasing(indices) && 0 in indices
    ensures indices[0] == 0
  {
    var j :| 0 <= j < |indices| && indices[j] == 0;
    assert 0 <= indices[0] <= indices[j];
  }
}
