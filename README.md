# CRIC-V delivery analysis, modelled in Dafny

CRIC-V analyses cricket deliveries. A pose detector and a ball detector turn a
video into per-frame landmarks, joint angles and ball bounding boxes. The
analysis layer then turns those into facts about the delivery and its
player:

- the bowling arm, the elbow extension, the release frame and the front-foot landing;
- the swing and ball type;
- compliance with Law 21.3 (elbow extension) and Law 24.5 (front-foot no-ball) of the MCC Laws of Cricket;
- coaching advice;
- the batting phases, stance and head stillness;
- the tracked ball trajectory, with its speed and spin;
- insights over a player's stored deliveries: wicket probability, a line/length heatmap, predicted economy, strike rate, scoring zones, shot ratio and similarity to professional players.

This project models that layer and proves what it promises. There is one
module per source file:

| module | file |
|---|---|
| `PitchMapping` | `pitch_mapping.dfy` |
| `IccStandards` | `icc_standards.dfy` |
| `BowlingAnalyzer` | `bowling_analyzer.dfy` |
| `BattingAnalyzer` | `batting_analyzer.dfy` |
| `AdvancedBallDetection` (class `AdvancedBallDetector`) | `advanced_ball_detector.dfy` |
| `BallDetector` | `ball_detector.dfy` |
| `BallTracking` | `ball_tracking.dfy` |
| `BowlingInsights` | `bowling_insights.dfy` |
| `BattingInsights` | `batting_insights.dfy` |

Two more modules hold shared code:

- `Common` has the detector outputs, the stored delivery record, Python's
  `x or default`, `.get` and truthiness, and the reductions the code takes
  from Python and numpy. These are sum, mean, `max`/`min` by key (the first
  extremum) and `sign`.
- `Ranking` has the stable descending sort and the top-three summary that
  both `compare_to_professional` insights use.

Code that works by appending and updating in loops is modelled as methods
with loop invariants. Each such method is proved against a specification
function, and the specification functions carry the properties as lemmas.
Threshold rules and arithmetic are modelled as functions.

Numbers are `real`. Three kinds of floating-point primitive are parameters
of the operations that use them, constrained only as far as the proofs need:

- acos-based joint angles are left unconstrained;
- Euclidean step distances are non-negative, and zero between a point and itself;
- a square root is zero at zero and positive on positive numbers; standard deviation is left unconstrained, except that the head-stillness bounds assume a non-negative spread.

All properties are stated on values before Python's `round`.

Where parts of the code disagree, the model follows the code as written.
Examples:

- The stance labels the batting analyzer produces (`open_stance`, …) are not
  the keys of the ICC stance table (`open`, …). So the shoulder warning
  never fires on them; `BattingAnalyzer.StanceLabelsNeverTriggerShoulderWarning` proves it.
- The two point accessors prefer opposite keys; `AdvancedBallDetection.AccessorsPreferOppositeKeys` proves it.
- The bowling analyzer's own `classify_ball_type` reads only `points_2d`, while the ball tracker returns `trajectory`; `BowlingAnalyzer.BallTypeIgnoresTrajectoryKey` proves it.

## Model

| member | source | states |
|---|---|---|
| PitchMapping.ClassifyLine | app/analytics/pitch_mapping.py:7-13 | the line is one of off/middle/leg: off iff x < 0.35, middle iff 0.35 <= x < 0.65, leg iff x >= 0.65 |
| PitchMapping.ClassifyLength | app/analytics/pitch_mapping.py:15-25 | five bands cut at 0.2/0.4/0.6/0.8, each stated as an iff, with a boundary value in the higher band |
| PitchMapping.ClassifyLineMonotone | app/analytics/pitch_mapping.py:7-13 | a larger x never gives an earlier line in the order off < middle < leg |
| PitchMapping.ClassifyLengthMonotone | app/analytics/pitch_mapping.py:15-25 | a larger y never gives an earlier length in the order yorker < … < bouncer |
| PitchMapping.LineWeight | app/analytics/pitch_mapping.py:51-54 | the line weight lies in [30, 70], and any unrecognised line weighs 40 |
| PitchMapping.LengthWeight | app/analytics/pitch_mapping.py:52-55 | the length weight lies in [30, 90], and any unrecognised length weighs 40 |
| PitchMapping.LineLengthScore | app/analytics/pitch_mapping.py:46-58 | the score lies in [30, 82]; it is 82 exactly for off/yorker and 30 exactly for leg/bouncer |
| PitchMapping.ScoreMonotoneInLine | app/analytics/pitch_mapping.py:58 | with the length fixed, a heavier line never lowers the score |
| PitchMapping.ScoreMonotoneInLength | app/analytics/pitch_mapping.py:58 | with the line fixed, a heavier length never lowers the score |
| IccStandards.CheckBowlingCompliance | app/services/icc_standards.py:81-115 | legal iff elbow <= 15 and no no-ball; elbow status illegal above 15, warning above 12, else legal; the violations are the elbow entry then the Law 24.5 entry; at most 2; a missing elbow counts as 0 |
| IccStandards.CheckBattingCompliance | app/services/icc_standards.py:60-79 | pass iff head movement (default 0) <= 0.03; the issues hold exactly the head-movement entry when it fails; the shoulder warning appears iff a tabled stance has its angle (default 90) outside the inclusive range; pass iff there are no issues |
| BowlingAnalyzer.MovementRange | app/services/bowling_analyzer.py:116-117 | an arm's movement range max − min is never negative |
| BowlingAnalyzer.DetectBowlingArm | app/services/bowling_analyzer.py:102-126 | left iff some frame carries metrics and the left range exceeds 1.5 × the right range; right otherwise |
| BowlingAnalyzer.MaxIndex | app/services/bowling_analyzer.py:149 | the landmark-count guard covers every shoulder, elbow, wrist and ankle index read for the arm |
| BowlingAnalyzer.ElbowSamples | app/services/bowling_analyzer.py:147-156 | at most one elbow sample per frame scanned |
| BowlingAnalyzer.ReleaseCandidates | app/services/bowling_analyzer.py:158-164 | at most one release candidate per frame scanned |
| BowlingAnalyzer.FootSamples | app/services/bowling_analyzer.py:166-173 | at most one foot sample per frame scanned |
| BowlingAnalyzer.ElbowSamplesSound | app/services/bowling_analyzer.py:147-156 | every elbow sample comes from a complete frame and carries that frame's elbow angle |
| BowlingAnalyzer.ElbowSamplesComplete | app/services/bowling_analyzer.py:147-156 | every complete frame has an elbow sample |
| BowlingAnalyzer.ReleaseCandidatesSound | app/services/bowling_analyzer.py:158-164 | every release candidate is a complete frame with angle < 30, carrying that angle and the frame's wrist |
| BowlingAnalyzer.ReleaseCandidatesComplete | app/services/bowling_analyzer.py:158-164 | every complete frame with angle < 30 is a release candidate |
| BowlingAnalyzer.FootSamplesSound | app/services/bowling_analyzer.py:166-173 | every foot sample is a complete frame past 0.6 × the clip, carrying that frame's ankle x and y |
| BowlingAnalyzer.FootSamplesComplete | app/services/bowling_analyzer.py:166-173 | every complete frame past 0.6 × the clip has a foot sample |
| BowlingAnalyzer.CollectSamples | app/services/bowling_analyzer.py:143-173 | the scanning loop builds exactly the three sample lists |
| BowlingAnalyzer.BestRelease | app/services/bowling_analyzer.py:183-187 | the release is a candidate of least angle, the first such one |
| BowlingAnalyzer.Landing | app/services/bowling_analyzer.py:190-192 | the landing is a foot sample of least ankle y, the first such one |
| BowlingAnalyzer.ElbowExtensionFacts | app/services/bowling_analyzer.py:176-180 | samples exist iff some frame is complete; the extension max − min is >= 0, brackets every complete frame's angle, and both max and min are the angle of some complete frame |
| BowlingAnalyzer.ReleaseCandidatesOrdered | app/services/bowling_analyzer.py:158-164 | the release candidates are appended in strictly increasing frame order |
| BowlingAnalyzer.FootSamplesOrdered | app/services/bowling_analyzer.py:166-172 | the front-foot samples are appended in strictly increasing frame order |
| BowlingAnalyzer.BestReleaseBeforeTies | app/services/bowling_analyzer.py:185 | among candidates in frame order, `min(..., key=angle)` is strictly less bent than every candidate of an earlier frame |
| BowlingAnalyzer.LandingBeforeTies | app/services/bowling_analyzer.py:192 | among samples in frame order, `min(..., key=y_position)` is strictly lower than every sample of an earlier frame |
| BowlingAnalyzer.ReleaseFirstOnTies | app/services/bowling_analyzer.py:183-187 | every qualifying frame before the chosen release frame has a strictly larger elbow angle, so ties go to the earliest frame |
| BowlingAnalyzer.ReleaseFacts | app/services/bowling_analyzer.py:183-187 | a release exists iff some complete frame has angle < 30; the chosen frame is such a frame, has the least such angle, and its wrist is the release point |
| BowlingAnalyzer.LandingFacts | app/services/bowling_analyzer.py:190-197 | a landing exists iff some complete frame lies past 0.6 × the clip; the chosen frame is such a frame with the least ankle y, and its stored x and y are that frame's ankle |
| BowlingAnalyzer.LandingFirstOnTies | app/services/bowling_analyzer.py:190-193 | every late complete frame before the chosen landing has a strictly higher ankle y, so ties go to the earliest frame |
| BowlingAnalyzer.ExtractBowlingMetrics | app/services/bowling_analyzer.py:128-205 | elbow extension present iff a complete frame exists, equal to max − min, >= 0; max and min bracket every complete frame's angle and are each attained by one; release frame and point: a qualifying frame of least angle, the earliest on ties, with its wrist; landing: a late complete frame of lowest ankle y, the earliest on ties, with its ankle x and y and no-ball iff x > 0.95; estimated speed 0; accuracy 75 with at most two release wrists, else the clamped 100 × (1 − mean spread) |
| BowlingAnalyzer.EstimateBowlingSpeed | app/services/bowling_analyzer.py:616-618 | the superseded pose-based speed estimate is always 0 |
| BowlingAnalyzer.ConsistencyWrists | app/services/bowling_analyzer.py:374-381 | at most one release wrist per frame |
| BowlingAnalyzer.ClampPercent | app/services/bowling_analyzer.py:392 | the clamp lies in [0, 100] and keeps values already inside it |
| BowlingAnalyzer.CalculateAccuracyScore | app/services/bowling_analyzer.py:363-394 | 75 with at most two release wrists; otherwise 100 × (1 − (std x + std y)/2) clamped to [0, 100] |
| BowlingAnalyzer.PerfectConsistency | app/services/bowling_analyzer.py:383-392 | identical release points (zero spread) score 100 |
| BowlingAnalyzer.TrajectorySwing | app/services/bowling_analyzer.py:235-242 | the trajectory decides iff its drift exceeds 0.1 in size; it is in-swing iff the drift is toward the bowling arm's in-side |
| BowlingAnalyzer.TiltSwing | app/services/bowling_analyzer.py:258-269 | straight iff the shoulder tilt lies within ±0.05; a tilt above 0.05 is out-swing for a right-arm bowler and in-swing for a left-arm one, a tilt below -0.05 the reverse |
| BowlingAnalyzer.SwingMirrorsWithArm | app/services/bowling_analyzer.py:242-267 | switching the bowling arm swaps in-swing and out-swing, for both the tilt rule and the trajectory rule |
| BowlingAnalyzer.FindReleaseFrame | app/services/bowling_analyzer.py:249-253 | the first frame whose right elbow angle (default 180) is below 40, or none when no frame qualifies |
| BowlingAnalyzer.DetectSwingType | app/services/bowling_analyzer.py:230-269 | a long points_2d trajectory with enough drift decides; otherwise unknown iff fewer than 10 frames, straight without a release frame, else the tilt rule on the first release frame, straight if it has 12 or fewer landmarks |
| BowlingAnalyzer.CheckIccCompliance | app/services/bowling_analyzer.py:271-304 | the violations are Illegal (high) above 15, else Warning (medium) above 12, then No Ball; at most 2; a high entry iff elbow > 15; none iff elbow <= 12 and no no-ball |
| BowlingAnalyzer.ElbowAdvice | app/services/bowling_analyzer.py:313-318 | the straighter-arm and brace items appear iff elbow > 12; the excellent item iff elbow < 5 |
| BowlingAnalyzer.FootAdvice | app/services/bowling_analyzer.py:321-324 | both front-foot items appear iff the landing is a no-ball |
| BowlingAnalyzer.SwingAdvice | app/services/bowling_analyzer.py:327-331 | the in-swing and out-swing items appear iff that swing was detected |
| BowlingAnalyzer.ComplianceAdvice | app/services/bowling_analyzer.py:334-335 | the compliant item appears iff there are no violations |
| BowlingAnalyzer.PaceAdvice | app/services/bowling_analyzer.py:338-343 | more-pace iff 0 < speed < 120; excellent-pace iff speed > 140 |
| BowlingAnalyzer.GenerateCoachingRecommendations | app/services/bowling_analyzer.py:306-345 | the advice is the elbow, foot, swing, compliance and pace groups in that order |
| BowlingAnalyzer.ComplianceAndAdvice | app/services/bowling_analyzer.py:461-468 | with the violations of the compliance check, the advice is never empty, holds the compliant item iff there are no violations, and has at least two items when elbow > 12 or a no-ball |
| BowlingAnalyzer.ClassifyBowlingStyle | app/services/bowling_analyzer.py:347-361 | the label is the arm's name and "_arm_" followed by "fast" iff the speed (0 when missing) exceeds 130, by "medium" iff it lies in (110, 130], by "spin" iff it is at most 110 |
| BowlingAnalyzer.StyleMonotone | app/services/bowling_analyzer.py:354-359 | a faster estimate never demotes a fast bowler, and a slower one never promotes a spinner |
| BowlingAnalyzer.EventsAt | app/services/bowling_analyzer.py:402-416 | at most three events per frame, all at that frame |
| BowlingAnalyzer.EventsAtMembership | app/services/bowling_analyzer.py:405-416 | an event is reported for a frame iff its condition holds there |
| BowlingAnalyzer.KeyEventsOrdered | app/services/bowling_analyzer.py:402-416 | events lie within the scanned frames, in frame order |
| BowlingAnalyzer.StepMembership | app/services/bowling_analyzer.py:402-416 | scanning one more frame adds exactly the events that hold at that frame |
| BowlingAnalyzer.KeyEventsMembership | app/services/bowling_analyzer.py:402-416 | an event is reported iff its frame is scanned and its condition holds there |
| BowlingAnalyzer.EventsAtInCheckOrder | app/services/bowling_analyzer.py:407-416 | one frame's events follow the check order back foot, front foot, release |
| BowlingAnalyzer.KeyEventsStrictlyOrdered | app/services/bowling_analyzer.py:402-416 | the events are strictly ordered by frame, then by check order, so none repeats |
| BowlingAnalyzer.DetectKeyEvents | app/services/bowling_analyzer.py:396-418 | the loop builds exactly KeyEvents; back foot (< 0.3 × clip, right knee < 100), front foot (> 0.6 × clip, left knee < 120) and release (arm's elbow < 35) are reported exactly when they hold, each at most once, ordered by frame and then by check order |
| BowlingAnalyzer.ClassifyBallType | app/services/bowling_analyzer.py:513-537 | no flag without a points_2d list of at least 10 points; otherwise the min-height rule over points[5:]; never more than one flag |
| BowlingAnalyzer.BallTypeAgreesWithEndpoint | app/services/bowling_analyzer.py:513-537 | with a long points_2d list, the analyzer and the endpoint helper classify alike |
| BowlingAnalyzer.BallTypeIgnoresTrajectoryKey | app/services/bowling_analyzer.py:516-517 | a bouncer tracked under the trajectory key is seen by the endpoint helper and missed by the analyzer |
| BowlingAnalyzer.CalculatePerformanceScore | app/services/bowling_analyzer.py:539-551 | min(speed/150×40, 40) + 0.4 × accuracy (default 50) + min(spin/1000×20, 20), capped at 100; non-negative on non-negative inputs |
| BowlingAnalyzer.PerformanceMonotoneInSpeed | app/services/bowling_analyzer.py:546 | a faster ball never lowers the performance score |
| BowlingAnalyzer.FullScoreNeedsFullPace | app/services/bowling_analyzer.py:546-551 | with accuracy at most 100, a ball below 150 km/h scores below 100 |
| BowlingAnalyzer.BoundaryOf | app/services/bowling_analyzer.py:566-578 | a boundary iff the final position has x < 0.1, x > 0.9 or y < 0.1; labelled "six" with 6 runs iff in addition y < 0.2, labelled "four" with 4 runs iff y >= 0.2; no label and 0 runs otherwise |
| BowlingAnalyzer.FarEndBoundaryIsSix | app/services/bowling_analyzer.py:571-575 | a final position with y < 0.1 is always a six |
| BattingAnalyzer.PhaseOf | app/services/batting_analyzer.py:48-56 | stance iff i < 0.3n, backlift iff 0.3n <= i < 0.6n, shot execution iff 0.6n <= i < 0.9n, follow-through otherwise |
| BattingAnalyzer.PhaseMonotone | app/services/batting_analyzer.py:49-56 | a later frame never falls in an earlier phase |
| BattingAnalyzer.PhaseIndicesFacts | app/services/batting_analyzer.py:48-56 | a phase list holds exactly the scanned indices of that phase, in strictly increasing order |
| BattingAnalyzer.PhaseCountsAddUp | app/services/batting_analyzer.py:48-56 | the four phase lists together have one entry per scanned frame |
| BattingAnalyzer.SplitPhases | app/services/batting_analyzer.py:40-58 | the loop builds exactly the four phase lists |
| BattingAnalyzer.DetectBattingPhases | app/services/batting_analyzer.py:36-58 | every frame index is in exactly the list of its phase, each list is strictly increasing, and the lengths add up to the frame count |
| BattingAnalyzer.InRange | app/services/batting_analyzer.py:67 | the listed indices below the frame count: exactly those, in list order, all kept when all are in range |
| BattingAnalyzer.SelectFrames | app/services/batting_analyzer.py:67 | one frame per in-range index, the frame at that index, in list order; with every index in range, exactly the frames at the listed indices |
| BattingAnalyzer.AnalyzeStance | app/services/batting_analyzer.py:81-106 | unknown iff no frame or fewer than 13 landmarks; open iff the shoulder x difference > 0.05, closed iff < −0.05, square otherwise |
| BattingAnalyzer.StanceMirror | app/services/batting_analyzer.py:99-106 | negating the shoulder difference swaps open and closed and keeps square |
| BattingAnalyzer.StanceLabelsNeverTriggerShoulderWarning | app/services/icc_standards.py:65-71 | the analyzer's stance labels are not ICC table keys, so the shoulder warning never fires on them |
| BattingAnalyzer.StanceFramesStartAtZero | app/services/batting_analyzer.py:67-89 | the first stance frame is frame 0 whenever frame 0 is a stance frame |
| BattingAnalyzer.NosePositions | app/services/batting_analyzer.py:131-136 | at most one nose position per frame |
| BattingAnalyzer.HeadMovement | app/services/batting_analyzer.py:138-145 | 0/0 without nose positions; otherwise the movement is the summed axis spreads and stillness max(0, 10 − movement): never negative, 0 iff movement >= 10, at most 10 for a non-negative spread |
| BattingAnalyzer.StillnessAntitone | app/services/batting_analyzer.py:143 | more movement never gives more stillness |
| BattingAnalyzer.AnalyzeHeadMovement | app/services/batting_analyzer.py:127-145 | the collecting loop computes the head position above |
| BattingAnalyzer.CalculateBatAngle | app/services/batting_analyzer.py:116-125 | 0 iff there are no frames, 25 otherwise |
| BattingAnalyzer.CalculateWeightDistribution | app/services/batting_analyzer.py:108-114 | a 45/55 split that adds up to 100, balance 8.5 |
| BattingAnalyzer.CalculateBattingMetrics | app/services/batting_analyzer.py:60-79 | the stance comes from the stance-phase frames; weight, bat angle and head position come from all frames |
| BattingAnalyzer.GenerateBattingRecommendations | app/services/batting_analyzer.py:147-173 | exactly one item per condition that holds, plus the head note: the stance note (guard off stump for open, watch lbw for closed) comes first, the weight note (front foot below 40%) second to last, and the head note (keep still below 5, else praise) last; each item appears iff its condition holds |
| BattingAnalyzer.AnalyzeBatting | app/services/batting_analyzer.py:9-34 | the stance is read from the clip's first frame; the front-foot advice never appears; the head statement comes last; a clip without landmarks is told to keep the head still |
| AdvancedBallDetection.TrajectoryFirstPoints | app/services/advanced_ball_detector.py:44 | a non-empty trajectory list wins, else points_2d, else nothing |
| AdvancedBallDetection.Lateral | app/services/advanced_ball_detector.py:106-109 | one sideways offset per centre, measured from the first centre against the direction |
| AdvancedBallDetection.SignChanges | app/services/advanced_ball_detector.py:112 | the number of sign changes is at most one fewer than the series length |
| AdvancedBallDetection.CentresOf | app/services/advanced_ball_detector.py:84-90 | at most one centre per detection; exactly one each when all carry a box, none when none does |
| AdvancedBallDetection.ScaledSignChanges | app/services/advanced_ball_detector.py:103 | dividing a series by a positive number keeps its sign changes |
| AdvancedBallDetection.LateralOfUnitDirection | app/services/advanced_ball_detector.py:99-112 | the unit direction and the raw direction give the same zero-crossing count |
| AdvancedBallDetection.SpinRpmBound | app/services/advanced_ball_detector.py:113-121 | the spin estimate lies in [0, 30 × fps) |
| AdvancedBallDetection.SumOfSquaresPositive | app/services/advanced_ball_detector.py:99-101 | the squared direction length is zero iff the first and last centres coincide |
| AdvancedBallDetection.CentresSpin | app/services/advanced_ball_detector.py:95-121 | the spin of at least five centres lies in [0, 30 × fps), and is 0 when the first and last centres coincide |
| AdvancedBallDetection.CollectCentres | app/services/advanced_ball_detector.py:84-90 | the loop collects the box centres in input order, skipping boxless detections |
| AdvancedBallDetection.CountSignChanges | app/services/advanced_ball_detector.py:112 | the loop counts the adjacent sign changes |
| AdvancedBallDetection.StationaryBallHasNoSpeed | app/services/advanced_ball_detector.py:49-61 | a trajectory whose points all coincide has speed 0 |
| AdvancedBallDetection.AccessorsPreferOppositeKeys | app/services/advanced_ball_detector.py:44 | with both lists present, the speed estimate reads trajectory and the endpoint helpers read points_2d |
| AdvancedBallDetection.AccessorsAgreeOnOneSchema | app/services/advanced_ball_detector.py:44 | with only one schema present, both accessors read the same list |
| AdvancedBallDetection.AdvancedBallDetector.constructor | app/services/advanced_ball_detector.py:15-23 | stores fps and pixels per metre |
| AdvancedBallDetection.AdvancedBallDetector.Default | app/services/advanced_ball_detector.py:15 | the default calibration is 30 fps and 100 pixels per metre |
| AdvancedBallDetection.AdvancedBallDetector.CalculateBallSpeed | app/services/advanced_ball_detector.py:29-63 | 0 with fewer than two points; otherwise mean step × fps / pixels per metre × 3.6; never negative |
| AdvancedBallDetection.AdvancedBallDetector.SpinOfCentres | app/services/advanced_ball_detector.py:95-121 | the normalised-direction computation gives the spin of the centres |
| AdvancedBallDetection.AdvancedBallDetector.CrossingsAlong | app/services/advanced_ball_detector.py:103-112 | the crossings along the unit direction equal those along the raw direction |
| AdvancedBallDetection.AdvancedBallDetector.RpmOfCrossings | app/services/advanced_ball_detector.py:113-119 | half a revolution per crossing, over the frames' duration, per minute |
| AdvancedBallDetection.AdvancedBallDetector.CalculateSpinRate | app/services/advanced_ball_detector.py:69-121 | 0 with fewer than five detections or five boxed ones; otherwise the spin of the centres; always in [0, 30 × fps) |
| BallDetector.OfFrame | app/services/ball_detector.py:67-72 | a frame's group holds exactly the detections of that frame |
| BallDetector.OfFrameNonEmpty | app/services/ball_detector.py:70-72 | a group is non-empty iff its frame has a detection |
| BallDetector.MostConfident | app/services/ball_detector.py:80 | the chosen detection belongs to the group, has the highest confidence, and is the first such one |
| BallDetector.BestOfFrameIsMostConfident | app/services/ball_detector.py:80-91 | a trajectory point's confidence is at least that of every detection in its frame |
| BallDetector.SortedFrames | app/services/ball_detector.py:76 | the frame numbers are strictly ascending, each appearing exactly once |
| BallDetector.FramesStep | app/services/ball_detector.py:68-72 | one more detection adds its frame to the set of frames |
| BallDetector.OfFrameStep | app/services/ball_detector.py:68-72 | one more detection is appended to its own frame's group and changes no other group |
| BallDetector.GroupedStep | app/services/ball_detector.py:68-72 | one grouping step keeps the dictionary equal to the grouping of the detections seen |
| BallDetector.GroupByFrame | app/services/ball_detector.py:66-72 | the keys are the detected frames; each value is that frame's detections, in input order, and is non-empty |
| BallDetector.BuildTrajectory | app/services/ball_detector.py:75-92 | one point per sorted frame, made from that frame's most confident detection |
| BallDetector.TrajectoryFromSortedFrames | app/services/ball_detector.py:75-92 | the points are strictly ascending by frame; there is exactly one per detected frame, carrying the highest confidence |
| BallDetector.AverageStep | app/services/ball_detector.py:94-106 | 0 with at most one point, else the mean step distance; never negative |
| BallDetector.TrackBallTrajectory | app/services/ball_detector.py:60-112 | strictly ascending, one point per detected frame, best of each frame; the frame count equals the number of distinct frames; the speed is 0 with at most one point, else the mean step distance between consecutive points, and never negative |
| BallDetector.ContactFramesMembership | app/services/ball_detector.py:122-127 | a frame is listed iff one of its detections has confidence > 0.7; no more entries than detections |
| BallDetector.DetectBallContact | app/services/ball_detector.py:114-129 | the loop lists, in input order and with repeats, the frames of detections with confidence > 0.7 |
| BallTracking.GetPoints | app/api/ball_tracking.py:149-151 | a non-empty points_2d wins, else trajectory, else nothing |
| BallTracking.PitchIndex | app/api/ball_tracking.py:160 | the pitch index is floor(0.6 n), always in bounds |
| BallTracking.EstimateSwing | app/api/ball_tracking.py:154-163 | 0 with fewer than 10 points; otherwise 0.1 × the x drift from release to the pitch index; never negative |
| BallTracking.BallTypeOf | app/api/ball_tracking.py:177-184 | yorker iff min height < 0.2, bouncer iff > 0.8, full toss iff in (0.4, 0.8]; at most one flag |
| BallTracking.HeightsAfterRelease | app/api/ball_tracking.py:173 | the heights are the y values of points[5:] |
| BallTracking.MinHeightAfterRelease | app/api/ball_tracking.py:173-174 | the minimum is attained by a point after the fifth, and bounds them all below |
| BallTracking.ClassifyBallType | app/api/ball_tracking.py:166-184 | no flag for fewer than 10 points; otherwise the min-height rule; at most one flag |
| BallTracking.YorkerIffLowPoint | app/api/ball_tracking.py:173-178 | a yorker iff some point after the fifth lies below 0.2 |
| BallTracking.BouncerIffAllHigh | app/api/ball_tracking.py:173-180 | a bouncer iff every point after the fifth lies above 0.8 |
| BallTracking.CalculateAccuracy | app/api/ball_tracking.py:187-189 | the accuracy placeholder is always 75 |
| BowlingInsights.BaseScore | app/analytics/bowling_insights.py:105 | the base score lies in [30, 82], and is 30 unless both line and length are given |
| BowlingInsights.SpeedFactor | app/analytics/bowling_insights.py:109 | at most 30, reached iff speed >= 150 |
| BowlingInsights.SwingFactor | app/analytics/bowling_insights.py:113 | at most 20, reached iff swing >= 10 |
| BowlingInsights.SpinFactor | app/analytics/bowling_insights.py:117 | at most 20, reached iff spin >= 1000 |
| BowlingInsights.WicketProbability | app/analytics/bowling_insights.py:99-120 | never above 100; at least 12 for non-negative speed and spin |
| BowlingInsights.WicketProbabilityIgnoresSwingDirection | app/analytics/bowling_insights.py:112 | negating the swing angle leaves the probability unchanged |
| BowlingInsights.MissingSpeedCountsAs120 | app/analytics/bowling_insights.py:108 | a missing or zero speed scores as 120 km/h |
| BowlingInsights.PaceBeyond150AddsNothing | app/analytics/bowling_insights.py:109 | speeds above 150 score as 150 |
| BowlingInsights.WicketProbabilityMonotoneInSpeed | app/analytics/bowling_insights.py:108-120 | a faster recorded speed never lowers the probability |
| BowlingInsights.BestDeliveryIsCapped | app/analytics/bowling_insights.py:119-120 | an off-stump yorker at 150 km/h with full swing and spin reaches exactly 100 |
| BowlingInsights.HeatmapRows | app/analytics/bowling_insights.py:70-74 | the query keeps only deliveries with line and length |
| BowlingInsights.CellCount | app/analytics/bowling_insights.py:82-84 | a cell counts at most every delivery |
| BowlingInsights.CellCountAfterFilter | app/analytics/bowling_insights.py:70-84 | filtering out deliveries with no line or length changes no cell count |
| BowlingInsights.Recognised | app/analytics/bowling_insights.py:83 | at most every delivery has a recognised line and length |
| BowlingInsights.LineIndex | app/analytics/bowling_insights.py:77 | a known line's position in the line list |
| BowlingInsights.LengthIndex | app/analytics/bowling_insights.py:78 | a known length's position in the length list |
| BowlingInsights.CountGrid | app/analytics/bowling_insights.py:80-84 | a 3 × 5 grid whose every cell is the count of deliveries with that line and length |
| BowlingInsights.Increment | app/analytics/bowling_insights.py:84 | incrementing a cell keeps the 3 × 5 shape |
| BowlingInsights.CountGridStep | app/analytics/bowling_insights.py:82-84 | one more delivery increments its own cell if recognised, and changes nothing otherwise |
| BowlingInsights.RowSums | app/analytics/bowling_insights.py:95 | one total per line |
| BowlingInsights.Column | app/analytics/bowling_insights.py:96 | a length's cells across the lines |
| BowlingInsights.ColumnSums | app/analytics/bowling_insights.py:96 | one total per length |
| BowlingInsights.IncrementTotal | app/analytics/bowling_insights.py:84 | an increment adds exactly 1 to the grid total |
| BowlingInsights.CountGridTotal | app/analytics/bowling_insights.py:82-84 | the grid total is the number of recognised deliveries |
| BowlingInsights.HeatmapCountsBounded | app/analytics/bowling_insights.py:77-84 | the counts add up to at most the number of deliveries |
| BowlingInsights.ShareBounded | app/analytics/bowling_insights.py:91 | a count out of a larger total is a percentage in [0, 100] |
| BowlingInsights.Percentages | app/analytics/bowling_insights.py:87-91 | each cell is its count over the total, × 100 |
| BowlingInsights.CountCells | app/analytics/bowling_insights.py:82-84 | the counting loop builds the count grid |
| BowlingInsights.ConvertToPercentages | app/analytics/bowling_insights.py:87-91 | the nested loop rewrites every cell as a percentage |
| BowlingInsights.HeatmapCells | app/analytics/bowling_insights.py:80-91 | the reported cells form a 3 × 5 grid |
| BowlingInsights.HeatmapCellsFacts | app/analytics/bowling_insights.py:80-91 | each cell is its percentage of the queried deliveries (0 when there are none), in [0, 100] |
| BowlingInsights.MostCommon | app/analytics/bowling_insights.py:95-96 | the most common line and length are first maxima of the line and length totals |
| BowlingInsights.LineLengthHeatmap | app/analytics/bowling_insights.py:68-97 | the cells are the percentages above, in [0, 100]; the most common line and length are the first maxima of the row and column totals |
| BowlingInsights.LineIndexInverse | app/analytics/bowling_insights.py:77 | a line's position recovers that line |
| BowlingInsights.LengthIndexInverse | app/analytics/bowling_insights.py:78 | a length's position recovers that length |
| BowlingInsights.EmptyHeatmapDefaults | app/analytics/bowling_insights.py:95-96 | an all-zero heatmap reports off and yorker |
| BowlingInsights.TruthySpeeds | app/analytics/bowling_insights.py:134 | only recorded non-zero speeds are averaged |
| BowlingInsights.AverageSpeed | app/analytics/bowling_insights.py:134 | 120 with no deliveries; undefined (numpy's empty mean) iff deliveries exist but none has a speed |
| BowlingInsights.SteadySpeeds | app/analytics/bowling_insights.py:134 | a bowler always at speed v contributes v for every delivery |
| BowlingInsights.AverageOfSteadyBowler | app/analytics/bowling_insights.py:134 | a bowler always at speed v averages v |
| BowlingInsights.BaseEconomy | app/analytics/bowling_insights.py:135 | the base economy is at most 8 iff the average is at least 120, and exactly 8 iff it is 120 |
| BowlingInsights.EconomyPrediction | app/analytics/bowling_insights.py:122-144 | no context, or one with neither a batting-friendly pitch nor fewer than 5 overs left (10 when unknown), leaves the base economy; a batting-friendly pitch alone gives 1.1 × the base, death overs alone 1.2 × the base, both 1.1 × 1.2 × the base; for a non-negative base the result lies between the base and 1.32 × the base |
| BowlingInsights.EmptyContextIsNeutral | app/analytics/bowling_insights.py:138-142 | a context without pitch type or overs changes nothing |
| BowlingInsights.DeathOversOnBattingPitch | app/analytics/bowling_insights.py:139-142 | a batting-friendly pitch with fewer than 5 overs left multiplies the base by 1.32 |
| BowlingInsights.EconomyFallsWithSpeed | app/analytics/bowling_insights.py:135-142 | a faster average never raises the predicted economy |
| BowlingInsights.FeaturesOf | app/analytics/bowling_insights.py:152-157 | the features default to elbow 10, release height 2.0 and speed 120; the swing is non-negative |
| BowlingInsights.DistanceSquared | app/analytics/bowling_insights.py:163-168 | the squared weighted distance is never negative |
| BowlingInsights.MatchHasNoDistance | app/analytics/bowling_insights.py:163-168 | features equal to the profile give distance 0 |
| BowlingInsights.BowlerSimilarity | app/analytics/bowling_insights.py:163-169 | the similarity max(0, 100 − 10 × distance) lies in [0, 100] |
| BowlingInsights.PerfectMatchScores100 | app/analytics/bowling_insights.py:168-169 | a delivery matching a profile exactly scores 100 |
| BowlingInsights.BowlerMatches | app/analytics/bowling_insights.py:159-174 | one result per professional, in table order, with name, similarity and average speed |
| BowlingInsights.CompareToProfessional | app/analytics/bowling_insights.py:146-181 | the results are ranked as Ranking.RankedFrom states: at most three, descending, taken from the per-professional results, ties kept in table order, the top match the first most similar; similarities in [0, 100] |
| BattingInsights.FacedRuns | app/analytics/batting_insights.py:30-33 | only deliveries with recorded, non-negative runs are faced balls |
| BattingInsights.StrikeRate | app/analytics/batting_insights.py:26-41 | 0 with no faced balls; never negative |
| BattingInsights.TotalRunsBounded | app/analytics/batting_insights.py:38 | the total runs are at most the per-ball cap × the number of balls |
| BattingInsights.StrikeRateAtMostSixAnOver | app/analytics/batting_insights.py:38-40 | with at most 6 runs a ball, the strike rate is at most 600 |
| BattingInsights.StrikeRateIsRunsPerHundredBalls | app/analytics/batting_insights.py:40 | strike rate × balls faced = total runs × 100 |
| BattingInsights.ZoneIndex | app/analytics/batting_insights.py:54-64 | a named zone's position in the zone list |
| BattingInsights.ZoneIndexInverse | app/analytics/batting_insights.py:54-64 | a zone's position recovers that zone |
| BattingInsights.ZoneRows | app/analytics/batting_insights.py:48-52 | the query keeps only deliveries with a direction and positive runs |
| BattingInsights.ZoneRuns | app/analytics/batting_insights.py:66-68 | a zone's runs are never negative |
| BattingInsights.NamedRuns | app/analytics/batting_insights.py:70 | the runs scored into named zones are never negative |
| BattingInsights.ZoneTotals | app/analytics/batting_insights.py:66-68 | nine totals, each equal to its zone's runs |
| BattingInsights.ZoneRunsAfterFilter | app/analytics/batting_insights.py:48-68 | the query's filter changes no zone's runs |
| BattingInsights.ZoneTotalsAfterFilter | app/analytics/batting_insights.py:48-68 | the query's filter changes no zone total |
| BattingInsights.NamedRunsAfterFilter | app/analytics/batting_insights.py:48-70 | the query's filter changes the overall total not at all |
| BattingInsights.ZoneTotalsStep | app/analytics/batting_insights.py:66-68 | a scoring delivery into a named zone adds its runs to that zone alone; any other delivery changes nothing |
| BattingInsights.ZoneTotalsSum | app/analytics/batting_insights.py:70 | the zone totals add up to the total runs |
| BattingInsights.OtherDirectionsIgnored | app/analytics/batting_insights.py:67 | a shot to an unnamed direction changes no zone and no total |
| BattingInsights.AccumulateZones | app/analytics/batting_insights.py:66-68 | the accumulation loop builds the zone totals |
| BattingInsights.Shares | app/analytics/batting_insights.py:71-73 | each share is its value over the total, × 100 |
| BattingInsights.ConvertToShares | app/analytics/batting_insights.py:71-73 | the conversion loop rewrites every zone as its share |
| BattingInsights.ShareOrder | app/analytics/batting_insights.py:73 | converting to shares keeps the order of any two zones, both ways |
| BattingInsights.SharesKeepFirstMaximum | app/analytics/batting_insights.py:71-76 | the favourite picked after the conversion is the favourite of the raw runs |
| BattingInsights.ScoringZones | app/analytics/batting_insights.py:43-81 | nine zones; the total is the named-zone runs; shares when positive, else raw values; favourite "unknown" iff the total is 0, and otherwise the first zone with the most runs |
| BattingInsights.ShotListsDisjoint | app/analytics/batting_insights.py:92-93 | no shot type is both aggressive and defensive |
| BattingInsights.CountOf | app/analytics/batting_insights.py:95-96 | a count never exceeds the number of deliveries |
| BattingInsights.ShotCountsBounded | app/analytics/batting_insights.py:95-97 | aggressive + defensive counts never exceed the deliveries |
| BattingInsights.Ratio | app/analytics/batting_insights.py:97-104 | all zeros without counted shots; otherwise the aggressive percentage is a/(a+d)·100 and the defensive d/(a+d)·100 (stated as p·(a+d) = a·100), both non-negative; the ratio is a/d (r·d = a) with defensive shots and 999 without |
| BattingInsights.ShotRatioOf | app/analytics/batting_insights.py:83-110 | the same facts, with a and d the numbers of recorded aggressive and defensive shots |
| BattingInsights.SharesMakeHundred | app/analytics/batting_insights.py:102-103 | with counted shots, the two percentages add up to 100 |
| BattingInsights.OtherShotsIgnored | app/analytics/batting_insights.py:95-96 | a shot of neither kind changes the ratio not at all |
| BattingInsights.BatsmanSimilarity | app/analytics/batting_insights.py:142-148 | max(0, 100 − timing difference) lies in [0, 100]; 100 iff the timing matches; 0 iff they differ by 100 or more |
| BattingInsights.CloserTimingIsMoreSimilar | app/analytics/batting_insights.py:147-148 | a closer timing score is never less similar |
| BattingInsights.BatsmanMatches | app/analytics/batting_insights.py:144-153 | one result per professional, in table order, with name, similarity and strike rate |
| BattingInsights.CompareToProfessional | app/analytics/batting_insights.py:136-159 | the results are ranked as Ranking.RankedFrom states: at most three, descending, taken from the per-professional results, ties kept in table order, the top match the first most similar; similarities in [0, 100] |
| Ranking.Insert | app/analytics/bowling_insights.py:177 | insertion adds one entry |
| Ranking.SortBySimilarity | app/analytics/bowling_insights.py:177 | the sort keeps the length |
| Ranking.InsertPermutes | app/analytics/bowling_insights.py:177 | insertion adds exactly the new entry to the multiset |
| Ranking.InsertBounded | app/analytics/bowling_insights.py:177 | insertion keeps a common upper bound on similarity |
| Ranking.InsertDescending | app/analytics/bowling_insights.py:177 | inserting into a descending list keeps it descending |
| Ranking.SortPermutes | app/analytics/bowling_insights.py:177 | the sorted list is a permutation of the results |
| Ranking.SortDescending | app/analytics/bowling_insights.py:177 | the sorted list is in descending similarity |
| Ranking.SortHead | app/analytics/bowling_insights.py:177 | the stable sort puts first the first result, in table order, of highest similarity |
| Ranking.Summarise | app/analytics/bowling_insights.py:178-181 | all_matches is the first min(3, n) sorted entries, and top_match is present iff n > 0 and is the first of them |
| Ranking.RankedEntriesAreScored | app/analytics/bowling_insights.py:177-181 | every reported entry is one of the results, and the reported list as a multiset is contained in the results |
| Ranking.WithSimilarityMembers | app/analytics/bowling_insights.py:177 | the entries of one similarity, in order: an entry is kept iff it is in the list with that similarity |
| Ranking.WithSimilarityAppend | app/analytics/bowling_insights.py:177 | keeping one similarity's entries distributes over concatenation |
| Ranking.InsertStable | app/analytics/bowling_insights.py:177 | inserting into a descending list puts the new entry after every earlier entry of equal similarity |
| Ranking.SortStable | app/analytics/bowling_insights.py:177 | the sort is stable: for every similarity, its entries appear in the sorted list in table order |
| Ranking.WithSimilarityOfPrefix | app/analytics/bowling_insights.py:178-181 | a prefix's entries of one similarity are a prefix of the whole list's |
| Ranking.TiesKeepTableOrder | app/analytics/bowling_insights.py:177-181 | for every similarity, the reported entries with it are the first of the results with it, in table order |
| Ranking.ScoredEntriesAreRanked | app/analytics/bowling_insights.py:177-181 | a result left out is no more similar than the third reported entry |
| Ranking.RankMatches | app/analytics/bowling_insights.py:176-181 | min(3, n) entries, descending, taken from the results without repeating any entry more often than it occurs there; reported entries of equal similarity keep table order and are the first of their ties; none left out is more similar than the third; the top match is the first most similar result in table order |
| Common.OrReal | app/analytics/bowling_insights.py:108 | Python's `x or default`: None and 0 give the default |
| Common.Metric | app/services/bowling_analyzer.py:403-415 | the angle recorded under the key; the default when the frame has no metrics or they lack that angle |
| Common.Centre | app/services/ball_detector.py:84-85 | the centre is the midpoint of the box |
| Common.Sign | app/services/advanced_ball_detector.py:112 | numpy's sign: 1, −1 or 0 iff positive, negative or zero |
| Common.ArgMaxFirst | app/analytics/bowling_insights.py:95-96 | Python's max by key: a maximum, the first one on ties |
| Common.FirstMaximumUnique | app/analytics/batting_insights.py:76 | only one index is a maximum with nothing as large before it |
| Common.ArgMinFirst | app/services/bowling_analyzer.py:185 | Python's min by key: a minimum, the first one on ties |
| Common.SeqMax | app/services/bowling_analyzer.py:178-179 | max of a list is an element bounding all others |
| Common.SeqMin | app/services/bowling_analyzer.py:178-180 | min of a list is an element bounded by all others |
| Common.RangeNonNegative | app/services/bowling_analyzer.py:178 | max − min is never negative |
| Common.Keys | app/services/bowling_analyzer.py:177 | one key per element, in order, as `[a[1] for a in elbow_angles]` |
| Common.StepDistances | app/services/ball_detector.py:98-102 | one step distance between each pair of consecutive points |
| Common.StationaryPathHasNoSteps | app/services/ball_detector.py:98-102 | a path that stays put has only zero steps |
| Common.StepsNonNegative | app/services/ball_detector.py:104 | the mean step is never negative |
| Common.MeanOfConstant | app/analytics/bowling_insights.py:134 | the mean of a constant list is that constant |

## Left out

- Video decoding and detection are left out: pose landmarks, joint angles and ball detections are inputs. This covers `PoseDetector.process_video`, `BallDetector.__init__` and `detect_ball_in_video` (the YOLO model loop).
- Database queries are left out. Each insight takes the query result as a list of delivery records, and the player filter of the query is dropped. The `Delivery` model these queries read is not part of this model.
- Orchestration is left out: both `analyze_bowling_action` definitions (the first is shadowed by the second and reads an undefined `ball_trajectory`), `BattingAnalyzer.analyze_video` and the endpoint functions of `app/api/ball_tracking.py`. They only chain the modelled operations around I/O. `BattingAnalyzer.AnalyzeBatting` states the batting chain without the pose call.
- In `_save_delivery_to_db`, only the boundary rule is modelled, as `BowlingAnalyzer.BoundaryOf`. The pitch-zone lookup, the delivery numbering and the database write are left out.
- Floating-point primitives are parameters rather than computed: acos in `calculate_angle`, the Euclidean step distance, `np.sqrt` in the bowler comparison, and `np.std`. `calculate_angle` itself is left out.
- `round(...)` is not modelled: every contract speaks of the unrounded value. The source picks the favourite zone (app/analytics/batting_insights.py:73-76) and the most common line and length (app/analytics/bowling_insights.py:91-96) from values it has already rounded to one decimal, while the model picks them from the unrounded values; two zones or rows whose values differ only below the first decimal tie in the source and can then yield a different (earlier) pick than the model's.
- `speed_consistency` and `timing_consistency` are left out. They are standard-deviation summaries with nothing beyond the abstract spread to state.
- The `BOWLING_ACTIONS` and `SWING_THRESHOLDS` tables, the ICC front-foot limit and the commented-out score table are left out: no code reads them. The ICC table entries that no code reads are left out too; only the elbow limits, the head variance and the stance angles are constants.
- Text results are modelled as small datatypes instead of strings: violation and recommendation texts, the event descriptions and the swing names. The values interpolated into a text (an elbow figure, a stance name) are fields of the datatype.
- Dictionary defaults are modelled as `Option` fields read with the source's default (`.get(key, default)`). A `metrics` entry that is present but not a dictionary cannot occur in the model.
- AdvancedBallDetection.AdvancedBallDetector.constructor: requires fps > 0 and pixels per metre > 0. The source accepts any value: with a zero fps or pixels per metre it divides by zero at speed or spin time; with a negative fps it returns a negative speed, and a spin of 0 because the final `max(rpm, 0.0)` (app/services/advanced_ball_detector.py:121) clamps the negative rpm. The model leaves out that clamp, which cannot change the value once fps > 0.
- AdvancedBallDetection.AdvancedBallDetector.CalculateSpinRate: leaves out the `duration_seconds == 0` guard. With fps > 0 and at least five centres the duration is positive, so the guard can never fire.
- BallDetector.TrackBallTrajectory: requires every detection to carry a box. The source reads `bbox` unguarded and fails without one. The `if frame_dets` guard is always true, because a group exists only once a detection is appended.
- BallDetector.GroupByFrame: writes the two-step "create an empty list, then append" as one map update per detection.
- BowlingAnalyzer.CalculateAccuracyScore: reads the right elbow angle whatever the bowling arm, as the source does. Only the wrist index follows the arm.
- The bowling arm is a two-valued datatype. The arm string reaches the analysis only from `detect_bowling_arm` (app/services/bowling_analyzer.py:102-126), which returns "right" or "left" and nothing else, so no other value is modelled. Called directly with some other string, the source would take the left-arm landmarks, call any drift of the ball out-swing, and put that string into the style label; none of that is modelled.
- BowlingInsights.AverageSpeed: numpy's NaN mean of an empty list is modelled as `None`.
- BowlingInsights.BowlerSimilarity: states that the similarity lies in [0, 100] and that an exact match scores 100. It does not prove the converse, that any difference scores below 100, because that needs facts about the abstract square root beyond the two that RootLike assumes.
- BattingInsights.CompareToProfessional: `shot_power` is read but unused by the source, and the profiles' `favored_zones` are never read; neither is modelled.
- BattingInsights.ShotRatioOf: the zero-count case names its last key `ratio`, while the other case names it `aggressive_defensive_ratio`. The model keeps one field for both.
