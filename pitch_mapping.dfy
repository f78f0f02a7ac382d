/**
 * Pitch zone classifier: maps a normalised landing coordinate to a line
 * (off / middle / leg, across the pitch) and a length (yorker ... bouncer,
 * along the pitch), and scores a (line, length) pair for its
 * wicket-taking potential with two weight tables.
 */
module PitchMapping {

  const Lines: seq<string> := ["off", "middle", "leg"]
  const Lengths: seq<string> := ["yorker", "full", "good", "short", "bouncer"]

  /** Line weights; any other string weighs `DefaultWeight`. */
  const LineWeights: map<string, real> := map["off" := 70.0, "middle" := 50.0, "leg" := 30.0]
  /** Length weights; any other string weighs `DefaultWeight`. */
  const LengthWeights: map<string, real> :=
    map["yorker" := 90.0, "full" := 70.0, "good" := 80.0, "short" := 40.0, "bouncer" := 30.0]
  const DefaultWeight: real := 40.0

  /** Line of a landing `x` (0 at the off-side edge, 1 at the leg-side edge). */
  function ClassifyLine(x: real): (zone: string)
    ensures zone in Lines
    ensures zone == "off" <==> x < 0.35
    ensures zone == "middle" <==> 0.35 <= x < 0.65
    ensures zone == "leg" <==> 0.65 <= x
  {
    if x < 0.35 then "off"
    else if x < 0.65 then "middle"
    else "leg"
  }

  /** Length of a landing `y` (0 at the bowler's end, 1 at the batter's end). */
  function ClassifyLength(y: real): (zone: string)
    ensures zone in Lengths
    ensures zone == "yorker" <==> y < 0.2
    ensures zone == "full" <==> 0.2 <= y < 0.4
    ensures zone == "good" <==> 0.4 <= y < 0.6
    ensures zone == "short" <==> 0.6 <= y < 0.8
    ensures zone == "bouncer" <==> 0.8 <= y
  {
    if y < 0.2 then "yorker"
    else if y < 0.4 then "full"
    else if y < 0.6 then "good"
    else if y < 0.8 then "short"
    else "bouncer"
  }

  /** Position of a zone name in its declaration order (off < middle < leg). */
  function ZoneRank(names: seq<string>, zone: string): (r: nat)
    requires zone in names
    ensures r < |names| && names[r] == zone
  {
    if names[0] == zone then 0 else 1 + ZoneRank(names[1..], zone)
  }

  /** Moving the landing point towards the leg side never moves the line towards off. */
  lemma ClassifyLineMonotone(x1: real, x2: real)
    requires x1 <= x2
    ensures ZoneRank(Lines, ClassifyLine(x1)) <= ZoneRank(Lines, ClassifyLine(x2))
  {
    var z1, z2 := ClassifyLine(x1), ClassifyLine(x2);
    assert ZoneRank(Lines, "off") == 0;
    assert ZoneRank(Lines, "middle") == 1;
    assert ZoneRank(Lines, "leg") == 2;
  }

  /** Moving the landing point towards the batter never makes the length fuller. */
  lemma ClassifyLengthMonotone(y1: real, y2: real)
    requires y1 <= y2
    ensures ZoneRank(Lengths, ClassifyLength(y1)) <= ZoneRank(Lengths, ClassifyLength(y2))
  {
    assert ZoneRank(Lengths, "yorker") == 0;
    assert ZoneRank(Lengths, "full") == 1;
    assert ZoneRank(Lengths, "good") == 2;
    assert ZoneRank(Lengths, "short") == 3;
    assert ZoneRank(Lengths, "bouncer") == 4;
  }

  function LineWeight(line: string): (w: real)
    ensures 30.0 <= w <= 70.0
    ensures line !in LineWeights ==> w == DefaultWeight
  {
    if line in LineWeights then LineWeights[line] else DefaultWeight
  }

  function LengthWeight(length: string): (w: real)
    ensures 30.0 <= w <= 90.0
    ensures length !in LengthWeights ==> w == DefaultWeight
  {
    if length in LengthWeights then LengthWeights[length] else DefaultWeight
  }

  /**
   * Wicket-taking potential of a (line, length) pair: 40% line weight plus
   * 60% length weight. Total: every string pair has a score, and the score
   * stays inside the documented 0-100 range.
   */
  function LineLengthScore(line: string, length: string): (score: real)
    ensures 30.0 <= score <= 82.0
    ensures score == 82.0 <==> line == "off" && length == "yorker"
    ensures score == 30.0 <==> line == "leg" && length == "bouncer"
  {
    LineWeight(line) * 0.4 + LengthWeight(length) * 0.6
  }

  /** With the length fixed, a line with a higher weight never scores lower. */
  lemma ScoreMonotoneInLine(line1: string, line2: string, length: string)
    requires LineWeight(line1) <= LineWeight(line2)
    ensures LineLengthScore(line1, length) <= LineLengthScore(line2, length)
  {
  }

  /** With the line fixed, a length with a higher weight never scores lower. */
  lemma ScoreMonotoneInLength(line: string, length1: string, length2: string)
    requires LengthWeight(length1) <= LengthWeight(length2)
    ensures LineLengthScore(line, length1) <= LineLengthScore(line, length2)
  {
  }
}
