/**
 * Rule tables of the Laws of Cricket as the repository encodes them: Law
 * 21.3 (elbow extension: above 15 degrees is illegal, above 12 degrees a
 * warning) and Law 24.5 (front-foot no-ball) for bowlers, and coaching
 * thresholds for a batter's stance and head movement. Each check starts
 * from a passing verdict and updates its fields rule by rule, in a fixed
 * order.
 */
module IccStandards {
  import opened Common

  /** Law 21.3 limit on elbow extension, in degrees. */
  const ElbowExtensionLimit: real := 15.0
  /** Elbow extension above which a warning is raised, in degrees. */
  const ElbowWarningThreshold: real := 12.0
  /** Largest tolerated head movement (the stance's optimal `y_variance`). */
  const HeadYVariance: real := 0.03

  /** Inclusive shoulder-angle ranges of the three recognised stance types. */
  const StanceShoulderAngles: map<string, (real, real)> :=
    map["square" := (85.0, 95.0), "open" := (96.0, 120.0), "closed" := (60.0, 84.0)]

  /** The bowling metrics the check reads; `None` is a missing key. */
  datatype BowlingInput = BowlingInput(elbowExtension: Option<real>, frontFootNoBall: bool)

  /** What a violation reports: the rule and the measured value it is about. */
  datatype Violation =
    | ElbowExceedsLimit(extension: real)     // rule "Law 21.3"
    | ElbowCloseToLimit(extension: real)     // rule "Law 21.3 (Warning)"
    | FrontFootBeyondCrease                  // rule "Law 24.5"

  function Rule(v: Violation): string
  {
    match v
    case ElbowExceedsLimit(_) => "Law 21.3"
    case ElbowCloseToLimit(_) => "Law 21.3 (Warning)"
    case FrontFootBeyondCrease => "Law 24.5"
  }

  datatype BowlingCompliance = BowlingCompliance(
    legal: bool,
    elbowStatus: string,
    frontFootStatus: string,
    violations: seq<Violation>)

  /** A missing elbow extension reads as 0 degrees. */
  function ElbowOf(m: BowlingInput): real
  {
    GetOr(m.elbowExtension, 0.0)
  }

  method CheckBowlingCompliance(metrics: BowlingInput) returns (c: BowlingCompliance)
    ensures c.legal <==> ElbowOf(metrics) <= ElbowExtensionLimit && !metrics.frontFootNoBall
    ensures c.elbowStatus ==
      (if ElbowOf(metrics) > ElbowExtensionLimit then "illegal"
       else if ElbowOf(metrics) > ElbowWarningThreshold then "warning"
       else "legal")
    ensures c.frontFootStatus == (if metrics.frontFootNoBall then "no_ball" else "legal")
    ensures c.violations ==
      (if ElbowOf(metrics) > ElbowExtensionLimit then [ElbowExceedsLimit(ElbowOf(metrics))]
       else if ElbowOf(metrics) > ElbowWarningThreshold then [ElbowCloseToLimit(ElbowOf(metrics))]
       else [])
      + (if metrics.frontFootNoBall then [FrontFootBeyondCrease] else [])
    ensures |c.violations| <= 2
    ensures metrics.elbowExtension.None? && !metrics.frontFootNoBall ==> c.legal && c.violations == []
  {
    c := BowlingCompliance(true, "legal", "legal", []);

    var elbowExt := GetOr(metrics.elbowExtension, 0.0);
    if elbowExt > ElbowExtensionLimit {
      c := c.(legal := false, elbowStatus := "illegal");
      c := c.(violations := c.violations + [ElbowExceedsLimit(elbowExt)]);
    } else if elbowExt > ElbowWarningThreshold {
      c := c.(elbowStatus := "warning");
      c := c.(violations := c.violations + [ElbowCloseToLimit(elbowExt)]);
    }

    if metrics.frontFootNoBall {
      c := c.(legal := false, frontFootStatus := "no_ball");
      c := c.(violations := c.violations + [FrontFootBeyondCrease]);
    }
  }

  /** The batting metrics the check reads; `None` is a missing key. */
  datatype BattingInput = BattingInput(
    stanceType: Option<string>,
    shoulderAngle: Option<real>,
    headMovement: Option<real>)

  datatype StanceWarning = ShoulderAngleNotOptimal(angle: real, stanceType: string)
  datatype BattingIssue = ExcessiveHeadMovement(movement: real)

  datatype BattingCompliance = BattingCompliance(
    pass: bool,
    warnings: seq<StanceWarning>,
    issues: seq<BattingIssue>)

  /** The shoulder angle lies outside the inclusive range of a recognised stance type. */
  predicate ShoulderOutOfRange(stance: string, angle: real)
  {
    stance in StanceShoulderAngles
    && !(StanceShoulderAngles[stance].0 <= angle <= StanceShoulderAngles[stance].1)
  }

  method CheckBattingCompliance(metrics: BattingInput) returns (c: BattingCompliance)
    ensures c.pass <==> GetOr(metrics.headMovement, 0.0) <= HeadYVariance
    ensures c.issues ==
      if GetOr(metrics.headMovement, 0.0) > HeadYVariance
      then [ExcessiveHeadMovement(GetOr(metrics.headMovement, 0.0))] else []
    ensures c.warnings ==
      var stance, angle := GetOr(metrics.stanceType, "unknown"), GetOr(metrics.shoulderAngle, 90.0);
      if ShoulderOutOfRange(stance, angle) then [ShoulderAngleNotOptimal(angle, stance)] else []
    // a shoulder warning is advice only; it never decides the verdict
    ensures c.pass <==> c.issues == []
  {
    c := BattingCompliance(true, [], []);

    var stanceType := GetOr(metrics.stanceType, "unknown");
    if stanceType in StanceShoulderAngles {
      var shoulderAngle := GetOr(metrics.shoulderAngle, 90.0);
      var (minAngle, maxAngle) := StanceShoulderAngles[stanceType];
      if !(minAngle <= shoulderAngle <= maxAngle) {
        c := c.(warnings := c.warnings + [ShoulderAngleNotOptimal(shoulderAngle, stanceType)]);
      }
    }

    var headMovement := GetOr(metrics.headMovement, 0.0);
    if headMovement > HeadYVariance {
      c := c.(issues := c.issues + [ExcessiveHeadMovement(headMovement)]);
      c := c.(pass := false);
    }
  }
}
