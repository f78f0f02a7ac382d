/**
 * Bowling insights over a player's stored deliveries: the wicket
 * probability of one delivery, the line/length heatmap, the economy
 * prediction, and the comparison with professional bowlers. The database
 * queries are replaced by the list of the player's delivery records.
 */
module BowlingInsights {
  import opened Common
  import opened PitchMapping
  import opened Ranking

  // ---------------------------------------------------------------------
  // Wicket probability
  // ---------------------------------------------------------------------

  /** The line/length base score: the pitch-map score, or 30 when either is missing or empty. */
  function BaseScore(d: DeliveryRecord): (s: real)
    ensures 30.0 <= s <= 82.0
    ensures !(Truthy(d.line) && Truthy(d.length)) ==> s == 30.0
  {
    if Truthy(d.line) && Truthy(d.length) then LineLengthScore(d.line.value, d.length.value) else 30.0
  }

  /** Up to 30 points for pace, reached at 150 km/h. */
  function SpeedFactor(speed: real): (f: real)
    ensures f <= 30.0
    ensures f == 30.0 <==> speed >= 150.0
    ensures speed >= 0.0 ==> f >= 0.0
  {
    Min(speed / 150.0 * 30.0, 30.0)
  }

  /** Up to 20 points for swing, reached at 10 degrees. */
  function SwingFactor(swing: real): (f: real)
    ensures f <= 20.0
    ensures f == 20.0 <==> swing >= 10.0
    ensures swing >= 0.0 ==> f >= 0.0
  {
    Min(swing / 10.0 * 20.0, 20.0)
  }

  /** Up to 20 points for spin, reached at 1000 rpm. */
  function SpinFactor(spin: real): (f: real)
    ensures f <= 20.0
    ensures f == 20.0 <==> spin >= 1000.0
    ensures spin >= 0.0 ==> f >= 0.0
  {
    Min(spin / 1000.0 * 20.0, 20.0)
  }

  /**
   * The weighted wicket score of one delivery: 0.4 of the base score plus
   * the three capped factors, capped at 100. A missing or zero speed counts
   * as 120 km/h, a missing swing or spin as 0, and only the size of the
   * swing angle matters.
   */
  function WicketProbability(d: DeliveryRecord): (p: real)
    ensures p <= 100.0
    ensures OrReal(d.speedKmh, 120.0) >= 0.0 && OrReal(d.spinRpm, 0.0) >= 0.0 ==> p >= 12.0
  {
    var lineScore := BaseScore(d);
    var speedFactor := SpeedFactor(OrReal(d.speedKmh, 120.0));
    var swingFactor := SwingFactor(Abs(OrReal(d.swingAngle, 0.0)));
    var spinFactor := SpinFactor(OrReal(d.spinRpm, 0.0));
    Min(lineScore * 0.4 + speedFactor + swingFactor + spinFactor, 100.0)
  }

  /** Swinging the other way scores the same. */
  lemma WicketProbabilityIgnoresSwingDirection(d: DeliveryRecord, angle: real)
    ensures WicketProbability(d.(swingAngle := Some(angle))) == WicketProbability(d.(swingAngle := Some(-angle)))
  {
  }

  /** A missing speed and a recorded zero are both read as 120 km/h. */
  lemma MissingSpeedCountsAs120(d: DeliveryRecord)
    ensures WicketProbability(d.(speedKmh := None)) == WicketProbability(d.(speedKmh := Some(120.0)))
    ensures WicketProbability(d.(speedKmh := Some(0.0))) == WicketProbability(d.(speedKmh := Some(120.0)))
  {
  }

  /** Each factor is capped before the sum: pace beyond 150 km/h adds nothing. */
  lemma PaceBeyond150AddsNothing(d: DeliveryRecord, speed: real)
    requires speed >= 150.0
    ensures WicketProbability(d.(speedKmh := Some(speed))) == WicketProbability(d.(speedKmh := Some(150.0)))
  {
  }

  /** A faster recorded speed never lowers the score. */
  lemma WicketProbabilityMonotoneInSpeed(d: DeliveryRecord, slower: real, faster: real)
    requires slower != 0.0 && faster != 0.0 && slower <= faster
    ensures WicketProbability(d.(speedKmh := Some(slower))) <= WicketProbability(d.(speedKmh := Some(faster)))
  {
  }

  /** The final cap is reached: the best line and length with every factor saturated sums past 100. */
  lemma BestDeliveryIsCapped(d: DeliveryRecord)
    requires d.line == Some("off") && d.length == Some("yorker")
    requires d.speedKmh == Some(150.0) && d.swingAngle == Some(10.0) && d.spinRpm == Some(1000.0)
    ensures WicketProbability(d) == 100.0
  {
    assert BaseScore(d) == 82.0;
  }

  // ---------------------------------------------------------------------
  // Line/length heatmap
  // ---------------------------------------------------------------------

  /** A heatmap grid: one row per line of `Lines`, one column per length of `Lengths`. */
  predicate IsGrid(g: seq<seq<real>>)
  {
    |g| == |Lines| && forall li :: 0 <= li < |g| ==> |g[li]| == |Lengths|
  }

  /** The query's filter: deliveries with both a line and a length. */
  function HeatmapRows(ds: seq<DeliveryRecord>): (rows: seq<DeliveryRecord>)
    ensures |rows| <= |ds|
  {
    if |ds| == 0 then []
    else
      var last := ds[|ds| - 1];
      HeatmapRows(ds[..|ds| - 1]) + (if last.line.Some? && last.length.Some? then [last] else [])
  }

  /** How many deliveries have this line and this length. */
  function CellCount(ds: seq<DeliveryRecord>, line: string, length: string): (n: nat)
    ensures n <= |ds|
  {
    if |ds| == 0 then 0
    else
      var last := ds[|ds| - 1];
      CellCount(ds[..|ds| - 1], line, length) + (if last.line == Some(line) && last.length == Some(length) then 1 else 0)
  }

  /** The filter drops only deliveries that no cell counts. */
  lemma {:induction false} CellCountAfterFilter(ds: seq<DeliveryRecord>, line: string, length: string)
    ensures CellCount(HeatmapRows(ds), line, length) == CellCount(ds, line, length)
  {
    if |ds| > 0 {
      var prefix := ds[..|ds| - 1];
      var last := ds[|ds| - 1];
      var rows := HeatmapRows(prefix);
      CellCountAfterFilter(prefix, line, length);
      if last.line.Some? && last.length.Some? {
        assert HeatmapRows(ds) == rows + [last];
        assert (rows + [last])[..|rows|] == rows;
        assert CellCount(rows + [last], line, length) ==
          CellCount(rows, line, length) + (if last.line == Some(line) && last.length == Some(length) then 1 else 0);
      } else {
        assert HeatmapRows(ds) == rows;
      }
    }
  }

  /** The delivery has a line and a length that name a cell of the grid. */
  predicate InGrid(d: DeliveryRecord)
  {
    d.line.Some? && d.line.value in Lines && d.length.Some? && d.length.value in Lengths
  }

  /** How many deliveries land in some cell. */
  function Recognised(ds: seq<DeliveryRecord>): (n: nat)
    ensures n <= |ds|
  {
    if |ds| == 0 then 0
    else Recognised(ds[..|ds| - 1]) + (if InGrid(ds[|ds| - 1]) then 1 else 0)
  }

  function LineIndex(line: string): (k: nat)
    requires line in Lines
    ensures k < |Lines| && Lines[k] == line
  {
    if line == "off" then 0 else if line == "middle" then 1 else 2
  }

  function LengthIndex(length: string): (k: nat)
    requires length in Lengths
    ensures k < |Lengths| && Lengths[k] == length
  {
    if length == "yorker" then 0
    else if length == "full" then 1
    else if length == "good" then 2
    else if length == "short" then 3
    else 4
  }

  /** The grid of cell counts. */
  function CountGrid(ds: seq<DeliveryRecord>): (g: seq<seq<real>>)
    ensures IsGrid(g)
    ensures forall li, lj :: 0 <= li < |Lines| && 0 <= lj < |Lengths| ==>
      g[li][lj] == CellCount(ds, Lines[li], Lengths[lj]) as real
  {
    seq(|Lines|, li requires 0 <= li < |Lines| =>
      seq(|Lengths|, lj requires 0 <= lj < |Lengths| => CellCount(ds, Lines[li], Lengths[lj]) as real))
  }

  function Increment(g: seq<seq<real>>, li: nat, lj: nat): (r: seq<seq<real>>)
    requires IsGrid(g) && li < |Lines| && lj < |Lengths|
    ensures IsGrid(r)
  {
    g[li := g[li][lj := g[li][lj] + 1.0]]
  }

  /** One more delivery adds one to its own cell, or changes nothing when it names no cell. */
  lemma CountGridStep(ds: seq<DeliveryRecord>, i: nat)
    requires i < |ds|
    ensures InGrid(ds[i]) ==>
      CountGrid(ds[..i + 1]) == Increment(CountGrid(ds[..i]), LineIndex(ds[i].line.value), LengthIndex(ds[i].length.value))
    ensures !InGrid(ds[i]) ==> CountGrid(ds[..i + 1]) == CountGrid(ds[..i])
  {
    assert ds[..i + 1][..i] == ds[..i];
    var before := CountGrid(ds[..i]);
    var after := CountGrid(ds[..i + 1]);
    if InGrid(ds[i]) {
      var r := Increment(before, LineIndex(ds[i].line.value), LengthIndex(ds[i].length.value));
      forall li | 0 <= li < |Lines|
        ensures after[li] == r[li]
      {
        assert |after[li]| == |r[li]|;
      }
    } else {
      forall li | 0 <= li < |Lines|
        ensures after[li] == before[li]
      {
        assert |after[li]| == |before[li]|;
      }
    }
  }

  function RowSums(g: seq<seq<real>>): (sums: seq<real>)
    ensures |sums| == |g| && forall li :: 0 <= li < |g| ==> sums[li] == Sum(g[li])
  {
    seq(|g|, li requires 0 <= li < |g| => Sum(g[li]))
  }

  function Column(g: seq<seq<real>>, lj: nat): (col: seq<real>)
    requires IsGrid(g) && lj < |Lengths|
    ensures |col| == |g| && forall li :: 0 <= li < |g| ==> col[li] == g[li][lj]
  {
    seq(|g|, li requires 0 <= li < |g| => g[li][lj])
  }

  function ColumnSums(g: seq<seq<real>>): (sums: seq<real>)
    requires IsGrid(g)
    ensures |sums| == |Lengths| && forall lj :: 0 <= lj < |Lengths| ==> sums[lj] == Sum(Column(g, lj))
  {
    seq(|Lengths|, lj requires 0 <= lj < |Lengths| => Sum(Column(g, lj)))
  }

  function GridTotal(g: seq<seq<real>>): real
  {
    Sum(RowSums(g))
  }

  lemma IncrementTotal(g: seq<seq<real>>, li: nat, lj: nat)
    requires IsGrid(g) && li < |Lines| && lj < |Lengths|
    ensures GridTotal(Increment(g, li, lj)) == GridTotal(g) + 1.0
  {
    SumUpdate(g[li], lj, g[li][lj] + 1.0);
    SumUpdate(RowSums(g), li, Sum(g[li]) + 1.0);
    assert RowSums(Increment(g, li, lj)) == RowSums(g)[li := Sum(g[li]) + 1.0];
  }

  /** The cells add up to the number of deliveries that name a cell. */
  lemma {:induction false} CountGridTotal(ds: seq<DeliveryRecord>)
    ensures GridTotal(CountGrid(ds)) == Recognised(ds) as real
  {
    if |ds| == 0 {
      var g := CountGrid(ds);
      forall li | 0 <= li < |Lines|
        ensures Sum(g[li]) == 0.0
      {
        SumOfZeros(g[li]);
      }
      SumOfZeros(RowSums(g));
    } else {
      var n := |ds| - 1;
      CountGridTotal(ds[..n]);
      CountGridStep(ds, n);
      assert ds[..n + 1] == ds;
      if InGrid(ds[n]) {
        IncrementTotal(CountGrid(ds[..n]), LineIndex(ds[n].line.value), LengthIndex(ds[n].length.value));
      }
    }
  }

  /** Every delivery is counted at most once: the cells add up to at most the deliveries. */
  lemma HeatmapCountsBounded(ds: seq<DeliveryRecord>)
    ensures GridTotal(CountGrid(ds)) <= |ds| as real
  {
    CountGridTotal(ds);
  }

  lemma ShareBounded(count: nat, total: nat)
    requires 0 < total && count <= total
    ensures 0.0 <= count as real / total as real * 100.0 <= 100.0
  {
    assert count as real / total as real <= 1.0;
  }

  /** Every cell as a percentage of `total`. */
  function Percentages(g: seq<seq<real>>, total: nat): (r: seq<seq<real>>)
    requires IsGrid(g) && total > 0
    ensures IsGrid(r)
    ensures forall li, lj :: 0 <= li < |Lines| && 0 <= lj < |Lengths| ==>
      r[li][lj] == g[li][lj] / total as real * 100.0
  {
    seq(|Lines|, li requires 0 <= li < |Lines| =>
      seq(|Lengths|, lj requires 0 <= lj < |Lengths| => g[li][lj] / total as real * 100.0))
  }

  /** The counting loop: one increment per delivery that names a cell. */
  method CountCells(rows: seq<DeliveryRecord>) returns (grid: seq<seq<real>>)
    ensures grid == CountGrid(rows)
  {
    grid := [[0.0, 0.0, 0.0, 0.0, 0.0], [0.0, 0.0, 0.0, 0.0, 0.0], [0.0, 0.0, 0.0, 0.0, 0.0]];
    ghost var start := CountGrid(rows[..0]);
    forall li | 0 <= li < |Lines|
      ensures grid[li] == start[li]
    {
      assert |start[li]| == |grid[li]|;
    }
    for i := 0 to |rows|
      invariant grid == CountGrid(rows[..i])
    {
      var d := rows[i];
      CountGridStep(rows, i);
      if d.line.Some? && d.line.value in Lines && d.length.Some? && d.length.value in Lengths {
        var li := LineIndex(d.line.value);
        var lj := LengthIndex(d.length.value);
        grid := grid[li := grid[li][lj := grid[li][lj] + 1.0]];
      }
    }
    assert rows[..|rows|] == rows;
  }

  /** The conversion loops: each cell is rewritten once, in place. */
  method ConvertToPercentages(counts: seq<seq<real>>, total: nat) returns (grid: seq<seq<real>>)
    requires IsGrid(counts) && total > 0
    ensures grid == Percentages(counts, total)
  {
    grid := counts;
    ghost var target := Percentages(counts, total);
    for li := 0 to |Lines|
      invariant IsGrid(grid)
      invariant forall a :: 0 <= a < li ==> grid[a] == target[a]
      invariant forall a :: li <= a < |Lines| ==> grid[a] == counts[a]
    {
      ghost var before := grid;
      for lj := 0 to |Lengths|
        invariant IsGrid(grid)
        invariant forall a :: 0 <= a < |Lines| && a != li ==> grid[a] == before[a]
        invariant grid[li][..lj] == target[li][..lj]
        invariant grid[li][lj..] == counts[li][lj..]
      {
        grid := grid[li := grid[li][lj := grid[li][lj] / total as real * 100.0]];
      }
      assert grid[li] == grid[li][..|Lengths|];
    }
  }

  /** The cells the heatmap reports: counts of the filtered deliveries, as percentages when there are any. */
  function HeatmapCells(ds: seq<DeliveryRecord>): (g: seq<seq<real>>)
    ensures IsGrid(g)
  {
    var rows := HeatmapRows(ds);
    if |rows| > 0 then Percentages(CountGrid(rows), |rows|) else CountGrid(rows)
  }

  lemma HeatmapCellsFacts(ds: seq<DeliveryRecord>)
    ensures var g, total := HeatmapCells(ds), |HeatmapRows(ds)|;
      forall li, lj :: 0 <= li < |Lines| && 0 <= lj < |Lengths| ==>
        g[li][lj] ==
          (if total > 0 then CellCount(ds, Lines[li], Lengths[lj]) as real / total as real * 100.0 else 0.0) &&
        0.0 <= g[li][lj] <= 100.0
  {
    forall li: nat, lj: nat | li < |Lines| && lj < |Lengths| {
      HeatmapCellFact(ds, li, lj);
    }
  }

  /** One heatmap cell is its share of the queried deliveries. */
  lemma HeatmapCellFact(ds: seq<DeliveryRecord>, li: nat, lj: nat)
    requires li < |Lines| && lj < |Lengths|
    ensures var g, total := HeatmapCells(ds), |HeatmapRows(ds)|;
      g[li][lj] ==
        (if total > 0 then CellCount(ds, Lines[li], Lengths[lj]) as real / total as real * 100.0 else 0.0) &&
      0.0 <= g[li][lj] <= 100.0
  {
    var rows := HeatmapRows(ds);
    CellCountAfterFilter(ds, Lines[li], Lengths[lj]);
    if |rows| > 0 {
      ShareBounded(CellCount(rows, Lines[li], Lengths[lj]), |rows|);
    }
  }

  /** The heatmap cells and the line and length with the largest totals. */
  datatype Heatmap = Heatmap(cells: seq<seq<real>>, mostCommonLine: string, mostCommonLength: string)

  /**
   * Counts the deliveries per (line, length) cell, then turns the counts
   * into percentages of the number of deliveries with a line and a length
   * (left at zero when there are none), and picks the first line and the
   * first length of largest total.
   */
  method LineLengthHeatmap(deliveries: seq<DeliveryRecord>) returns (h: Heatmap)
    ensures IsGrid(h.cells)
    ensures var total := |HeatmapRows(deliveries)|;
      forall li, lj :: 0 <= li < |Lines| && 0 <= lj < |Lengths| ==>
        h.cells[li][lj] ==
          (if total > 0 then CellCount(deliveries, Lines[li], Lengths[lj]) as real / total as real * 100.0 else 0.0)
    ensures forall li, lj :: 0 <= li < |Lines| && 0 <= lj < |Lengths| ==> 0.0 <= h.cells[li][lj] <= 100.0
    ensures h.mostCommonLine in Lines && h.mostCommonLength in Lengths
    ensures var totals, k := RowSums(h.cells), LineIndex(h.mostCommonLine);
      (forall li :: 0 <= li < |Lines| ==> totals[li] <= totals[k]) &&
      (forall li :: 0 <= li < k ==> totals[li] < totals[k])
    ensures var totals, k := ColumnSums(h.cells), LengthIndex(h.mostCommonLength);
      (forall lj :: 0 <= lj < |Lengths| ==> totals[lj] <= totals[k]) &&
      (forall lj :: 0 <= lj < k ==> totals[lj] < totals[k])
  {
    var rows := HeatmapRows(deliveries);
    var grid := CountCells(rows);
    var total := |rows|;
    if total > 0 {
      grid := ConvertToPercentages(grid, total);
    }
    assert grid == HeatmapCells(deliveries);
    HeatmapCellsFacts(deliveries);
    var line, length := MostCommon(grid);
    h := Heatmap(grid, line, length);
  }

  /** The first line and the first length, in table order, of largest total. */
  method MostCommon(grid: seq<seq<real>>) returns (line: string, length: string)
    requires IsGrid(grid)
    ensures line in Lines && length in Lengths
    ensures var totals, k := RowSums(grid), LineIndex(line);
      (forall li :: 0 <= li < |Lines| ==> totals[li] <= totals[k]) &&
      (forall li :: 0 <= li < k ==> totals[li] < totals[k])
    ensures var totals, k := ColumnSums(grid), LengthIndex(length);
      (forall lj :: 0 <= lj < |Lengths| ==> totals[lj] <= totals[k]) &&
      (forall lj :: 0 <= lj < k ==> totals[lj] < totals[k])
  {
    var k := ArgMaxFirst(RowSums(grid));
    var m := ArgMaxFirst(ColumnSums(grid));
    LineIndexInverse(k);
    LengthIndexInverse(m);
    line, length := Lines[k], Lengths[m];
  }

  lemma LineIndexInverse(k: nat)
    requires k < |Lines|
    ensures LineIndex(Lines[k]) == k
  {
  }

  lemma LengthIndexInverse(k: nat)
    requires k < |Lengths|
    ensures LengthIndex(Lengths[k]) == k
  {
  }

  /** With no delivery to count every total is zero, so the first line and length are reported. */
  lemma EmptyHeatmapDefaults(g: seq<seq<real>>)
    requires IsGrid(g)
    requires forall li, lj :: 0 <= li < |Lines| && 0 <= lj < |Lengths| ==> g[li][lj] == 0.0
    ensures Lines[ArgMaxFirst(RowSums(g))] == "off"
    ensures Lengths[ArgMaxFirst(ColumnSums(g))] == "yorker"
  {
    forall li | 0 <= li < |Lines|
      ensures RowSums(g)[li] == 0.0
    {
      SumOfZeros(g[li]);
    }
    forall lj | 0 <= lj < |Lengths|
      ensures ColumnSums(g)[lj] == 0.0
    {
      SumOfZeros(Column(g, lj));
    }
    var k := ArgMaxFirst(ColumnSums(g));
    assert ColumnSums(g)[0] == 0.0 && ColumnSums(g)[k] == 0.0;
  }

  // ---------------------------------------------------------------------
  // Economy prediction
  // ---------------------------------------------------------------------

  /** The recorded speeds that are neither missing nor zero. */
  function TruthySpeeds(ds: seq<DeliveryRecord>): (speeds: seq<real>)
    ensures |speeds| <= |ds|
    ensures forall i :: 0 <= i < |speeds| ==> speeds[i] != 0.0
  {
    if |ds| == 0 then []
    else
      var last := ds[|ds| - 1];
      TruthySpeeds(ds[..|ds| - 1]) + (if last.speedKmh.Some? && last.speedKmh.value != 0.0 then [last.speedKmh.value] else [])
  }

  /**
   * The historical average speed: 120 for a bowler with no deliveries, the
   * mean of the recorded speeds otherwise, and `None` where numpy's mean of
   * an empty list yields NaN (deliveries, but none with a speed).
   */
  function AverageSpeed(ds: seq<DeliveryRecord>): (avg: Option<real>)
    ensures |ds| == 0 ==> avg == Some(120.0)
    ensures |ds| > 0 ==> (avg.None? <==> |TruthySpeeds(ds)| == 0)
  {
    if |ds| == 0 then Some(120.0)
    else
      var speeds := TruthySpeeds(ds);
      if |speeds| == 0 then None else Some(Mean(speeds))
  }

  lemma {:induction false} SteadySpeeds(ds: seq<DeliveryRecord>, v: real)
    requires v != 0.0
    requires forall i :: 0 <= i < |ds| ==> ds[i].speedKmh == Some(v)
    ensures |TruthySpeeds(ds)| == |ds|
    ensures forall i :: 0 <= i < |ds| ==> TruthySpeeds(ds)[i] == v
  {
    if |ds| > 0 {
      SteadySpeeds(ds[..|ds| - 1], v);
    }
  }

  /** A bowler who always bowls at the same speed averages that speed. */
  lemma AverageOfSteadyBowler(ds: seq<DeliveryRecord>, v: real)
    requires |ds| > 0 && v != 0.0
    requires forall i :: 0 <= i < |ds| ==> ds[i].speedKmh == Some(v)
    ensures AverageSpeed(ds) == Some(v)
  {
    SteadySpeeds(ds, v);
    MeanOfConstant(TruthySpeeds(ds), v);
  }

  /** The match context keys read: `pitch_type` and `overs_left` (`None` is an absent key). */
  datatype MatchContext = MatchContext(pitchType: Option<string>, oversLeft: Option<real>)

  /** Eight runs an over at 120 km/h, 0.02 fewer for every km/h faster. */
  function BaseEconomy(avgSpeed: real): (e: real)
    ensures avgSpeed >= 120.0 <==> e <= 8.0
    ensures avgSpeed == 120.0 <==> e == 8.0
  {
    8.0 - (avgSpeed - 120.0) * 0.02
  }

  predicate BattingFriendly(c: MatchContext)
  {
    c.pitchType == Some("batting_friendly")
  }

  /** Death overs: fewer than five overs left, ten when the key is absent. */
  predicate DeathOvers(c: MatchContext)
  {
    GetOr(c.oversLeft, 10.0) < 5.0
  }

  /**
   * The predicted economy: the base rate, raised 10% on a batting-friendly
   * pitch and 20% in the death overs. An absent context, like an empty one,
   * leaves the base rate.
   */
  function EconomyPrediction(avgSpeed: real, context: Option<MatchContext>): (e: real)
    ensures context.None? ==> e == BaseEconomy(avgSpeed)
    ensures context.Some? && !BattingFriendly(context.value) && !DeathOvers(context.value) ==> e == BaseEconomy(avgSpeed)
    ensures context.Some? && BattingFriendly(context.value) && !DeathOvers(context.value) ==> e == BaseEconomy(avgSpeed) * 1.1
    ensures context.Some? && !BattingFriendly(context.value) && DeathOvers(context.value) ==> e == BaseEconomy(avgSpeed) * 1.2
    ensures context.Some? && BattingFriendly(context.value) && DeathOvers(context.value) ==> e == BaseEconomy(avgSpeed) * 1.1 * 1.2
    ensures BaseEconomy(avgSpeed) >= 0.0 ==> BaseEconomy(avgSpeed) <= e <= BaseEconomy(avgSpeed) * 1.32
  {
    var base := BaseEconomy(avgSpeed);
    if context.None? then base
    else
      var c := context.value;
      var afterPitch := if BattingFriendly(c) then base * 1.1 else base;
      if DeathOvers(c) then afterPitch * 1.2 else afterPitch
  }

  /** A context with neither key, present or not, changes nothing. */
  lemma EmptyContextIsNeutral(avgSpeed: real)
    ensures EconomyPrediction(avgSpeed, Some(MatchContext(None, None))) == EconomyPrediction(avgSpeed, None)
  {
  }

  /** Both adjustments together multiply the base rate by 1.32. */
  lemma DeathOversOnBattingPitch(avgSpeed: real, oversLeft: real)
    requires oversLeft < 5.0
    ensures EconomyPrediction(avgSpeed, Some(MatchContext(Some("batting_friendly"), Some(oversLeft))))
      == BaseEconomy(avgSpeed) * 1.32
  {
  }

  /** In any context, a faster bowler is predicted to concede no more. */
  lemma EconomyFallsWithSpeed(slower: real, faster: real, context: Option<MatchContext>)
    requires slower <= faster
    ensures EconomyPrediction(faster, context) <= EconomyPrediction(slower, context)
  {
  }

  // ---------------------------------------------------------------------
  // Comparison with professional bowlers
  // ---------------------------------------------------------------------

  /** A professional bowler's profile: the action features and the averages. */
  datatype BowlerProfile = BowlerProfile(
    name: string,
    elbowExtension: real,
    releaseHeight: real,
    runUpSpeed: real,
    frontFootAngle: real,
    avgSpeed: real,
    economy: real)

  /** The built-in profile table. */
  const ProfessionalBowlers: seq<BowlerProfile> := [
    BowlerProfile("Jasprit Bumrah", 8.5, 2.1, 7.2, 45.0, 145.2, 4.8),
    BowlerProfile("Pat Cummins", 6.2, 2.0, 8.1, 40.0, 148.0, 4.5)
  ]

  /** The compared features of a delivery, with the defaults for a missing or zero column. */
  datatype Features = Features(elbowExtension: real, releaseHeight: real, speedKmh: real, swingAngle: real)

  function FeaturesOf(d: DeliveryRecord): (f: Features)
    ensures f.swingAngle >= 0.0
    ensures d.elbowExtension.None? ==> f.elbowExtension == 10.0
    ensures d.releasePointY.None? ==> f.releaseHeight == 2.0
    ensures d.speedKmh.None? ==> f.speedKmh == 120.0
  {
    Features(
      OrReal(d.elbowExtension, 10.0),
      OrReal(d.releasePointY, 2.0),
      OrReal(d.speedKmh, 120.0),
      Abs(OrReal(d.swingAngle, 0.0)))
  }

  /** The compared features coincide with the profile's. */
  predicate Matches(f: Features, pro: BowlerProfile)
  {
    f.elbowExtension == pro.elbowExtension && f.releaseHeight == pro.releaseHeight &&
    f.speedKmh == pro.avgSpeed && f.swingAngle == 2.0
  }

  /**
   * The squared weighted distance to a profile: speed differences count a
   * tenth and the swing is compared with 2 degrees at half weight.
   */
  function DistanceSquared(f: Features, pro: BowlerProfile): (v: real)
    ensures v >= 0.0
  {
    var diffElbow := Abs(f.elbowExtension - pro.elbowExtension);
    var diffHeight := Abs(f.releaseHeight - pro.releaseHeight);
    var diffSpeed := Abs(f.speedKmh - pro.avgSpeed) / 10.0;
    var diffSwing := Abs(f.swingAngle - 2.0) / 2.0;
    SquarePositive(diffElbow);
    SquarePositive(diffHeight);
    SquarePositive(diffSpeed);
    SquarePositive(diffSwing);
    diffElbow * diffElbow + diffHeight * diffHeight + diffSpeed * diffSpeed + diffSwing * diffSwing
  }

  lemma MatchHasNoDistance(f: Features, pro: BowlerProfile)
    requires Matches(f, pro)
    ensures DistanceSquared(f, pro) == 0.0
  {
  }

  /**
   * Similarity of a delivery to a profile: 100 less ten times the distance,
   * never below 0, and at most 100 with a square root that is zero at zero
   * and positive on positive numbers.
   */
  function BowlerSimilarity(d: DeliveryRecord, pro: BowlerProfile, sqrt: real -> real): (s: real)
    ensures s >= 0.0
    ensures RootLike(sqrt) ==> s <= 100.0
  {
    Max(0.0, 100.0 - sqrt(DistanceSquared(FeaturesOf(d), pro)) * 10.0)
  }

  /** A delivery whose features are the profile's scores 100. */
  lemma PerfectMatchScores100(d: DeliveryRecord, pro: BowlerProfile, sqrt: real -> real)
    requires RootLike(sqrt) && Matches(FeaturesOf(d), pro)
    ensures BowlerSimilarity(d, pro, sqrt) == 100.0
  {
    MatchHasNoDistance(FeaturesOf(d), pro);
  }

  /** One result per profile, in table order. */
  function BowlerMatches(d: DeliveryRecord, pros: seq<BowlerProfile>, sqrt: real -> real): (ms: seq<Match>)
    ensures |ms| == |pros|
    ensures forall i :: 0 <= i < |pros| ==>
      ms[i] == Match(pros[i].name, BowlerSimilarity(d, pros[i], sqrt), pros[i].avgSpeed)
  {
    seq(|pros|, i requires 0 <= i < |pros| =>
      Match(pros[i].name, BowlerSimilarity(d, pros[i], sqrt), pros[i].avgSpeed))
  }

  /**
   * Scores the delivery against every profile (`ProfessionalBowlers` in the
   * source), sorts the results by similarity and reports the best match and
   * the first three.
   */
  method CompareToProfessional(d: DeliveryRecord, pros: seq<BowlerProfile>, sqrt: real -> real)
    returns (comparison: Comparison)
    ensures RankedFrom(comparison, BowlerMatches(d, pros, sqrt))
    ensures RootLike(sqrt) ==>
      forall m :: m in comparison.allMatches ==> 0.0 <= m.similarity <= 100.0
  {
    var results: seq<Match> := [];
    for i := 0 to |pros|
      invariant results == BowlerMatches(d, pros[..i], sqrt)
    {
      results := results + [Match(pros[i].name, BowlerSimilarity(d, pros[i], sqrt), pros[i].avgSpeed)];
    }
    assert pros[..|pros|] == pros;
    ghost var scored := results;
    RankMatches(scored);
    results := SortBySimilarity(results);
    comparison := Summarise(results);
  }
}
