/**
 * Batting insights over a player's stored deliveries: strike rate, the
 * wagon-wheel scoring zones, the aggressive/defensive shot ratio, and the
 * comparison with professional batsmen. The database queries are replaced
 * by the list of the player's delivery records; each operation applies the
 * query's own conditions on the record.
 */
module BattingInsights {
  import opened Common
  import opened Ranking

  // ---------------------------------------------------------------------
  // Strike rate
  // ---------------------------------------------------------------------

  /** The query's filter: the runs of deliveries whose runs are recorded and not negative. */
  function FacedRuns(ds: seq<DeliveryRecord>): (runs: seq<nat>)
    ensures |runs| <= |ds|
  {
    if |ds| == 0 then []
    else
      var last := ds[|ds| - 1];
      FacedRuns(ds[..|ds| - 1]) + (if last.runs.Some? && last.runs.value >= 0 then [last.runs.value as nat] else [])
  }

  function TotalRuns(runs: seq<nat>): nat
  {
    if |runs| == 0 then 0 else TotalRuns(runs[..|runs| - 1]) + runs[|runs| - 1]
  }

  /** Runs per hundred balls faced; 0 when no ball was faced. */
  function StrikeRate(ds: seq<DeliveryRecord>): (sr: real)
    ensures |FacedRuns(ds)| == 0 ==> sr == 0.0
    ensures sr >= 0.0
  {
    var runs := FacedRuns(ds);
    if |runs| == 0 then 0.0 else TotalRuns(runs) as real / |runs| as real * 100.0
  }

  lemma {:induction false} TotalRunsBounded(runs: seq<nat>, most: nat)
    requires forall i :: 0 <= i < |runs| ==> runs[i] <= most
    ensures TotalRuns(runs) <= most * |runs|
  {
    if |runs| > 0 {
      TotalRunsBounded(runs[..|runs| - 1], most);
    }
  }

  lemma QuotientTimesDivisor(a: real, d: real)
    requires d > 0.0
    ensures a / d * d == a
    ensures a / d * 100.0 * d == a * 100.0
  {
    assert a / d * 100.0 * d == a / d * d * 100.0;
  }

  lemma QuotientBound(t: real, n: real, c: real)
    requires n > 0.0 && t <= c * n
    ensures t / n <= c
  {
    QuotientTimesDivisor(t, n);
    assert (t / n - c) * n == t - c * n;
  }

  /** A batter who never scores more than six off a ball strikes at no more than 600. */
  lemma StrikeRateAtMostSixAnOver(ds: seq<DeliveryRecord>)
    requires forall i :: 0 <= i < |FacedRuns(ds)| ==> FacedRuns(ds)[i] <= 6
    ensures StrikeRate(ds) <= 600.0
  {
    var runs := FacedRuns(ds);
    TotalRunsBounded(runs, 6);
    if |runs| > 0 {
      QuotientBound(TotalRuns(runs) as real, |runs| as real, 6.0);
    }
  }

  /** Each ball contributes its runs: the strike rate times the balls faced is a hundred times the runs. */
  lemma StrikeRateIsRunsPerHundredBalls(ds: seq<DeliveryRecord>)
    requires |FacedRuns(ds)| > 0
    ensures StrikeRate(ds) * (|FacedRuns(ds)| as real) == TotalRuns(FacedRuns(ds)) as real * 100.0
  {
    var n := |FacedRuns(ds)| as real;
    var t := TotalRuns(FacedRuns(ds)) as real;
    assert StrikeRate(ds) == t / n * 100.0;
    QuotientTimesDivisor(t, n);
  }

  // ---------------------------------------------------------------------
  // Scoring zones
  // ---------------------------------------------------------------------

  /** The nine wagon-wheel zones, in the order the result lists them. */
  const Zones: seq<string> := [
    "cover", "midwicket", "straight", "point", "square_leg", "third_man", "fine_leg", "long_on", "long_off"
  ]

  function ZoneIndex(zone: string): (k: nat)
    requires zone in Zones
    ensures k < |Zones| && Zones[k] == zone
  {
    if zone == Zones[0] then 0
    else if zone == Zones[1] then 1
    else if zone == Zones[2] then 2
    else if zone == Zones[3] then 3
    else if zone == Zones[4] then 4
    else if zone == Zones[5] then 5
    else if zone == Zones[6] then 6
    else if zone == Zones[7] then 7
    else 8
  }

  lemma ZoneIndexInverse(k: nat)
    requires k < |Zones|
    ensures ZoneIndex(Zones[k]) == k
  {
  }

  /** The query's condition: a recorded shot direction and at least one run. */
  predicate Scoring(d: DeliveryRecord)
  {
    d.shotDirection.Some? && d.runs.Some? && d.runs.value > 0
  }

  function ZoneRows(ds: seq<DeliveryRecord>): (rows: seq<DeliveryRecord>)
    ensures |rows| <= |ds|
  {
    if |ds| == 0 then []
    else ZoneRows(ds[..|ds| - 1]) + (if Scoring(ds[|ds| - 1]) then [ds[|ds| - 1]] else [])
  }

  /** The runs of scoring deliveries hit into `zone`. */
  function ZoneRuns(ds: seq<DeliveryRecord>, zone: string): (r: real)
    ensures r >= 0.0
  {
    if |ds| == 0 then 0.0
    else
      var last := ds[|ds| - 1];
      ZoneRuns(ds[..|ds| - 1], zone) + (if Scoring(last) && last.shotDirection.value == zone then last.runs.value as real else 0.0)
  }

  /** The runs of scoring deliveries hit into any of the nine zones. */
  function NamedRuns(ds: seq<DeliveryRecord>): (r: real)
    ensures r >= 0.0
  {
    if |ds| == 0 then 0.0
    else
      var last := ds[|ds| - 1];
      NamedRuns(ds[..|ds| - 1]) + (if Scoring(last) && last.shotDirection.value in Zones then last.runs.value as real else 0.0)
  }

  /** The runs per zone, in zone order. */
  function ZoneTotals(ds: seq<DeliveryRecord>): (totals: seq<real>)
    ensures |totals| == |Zones|
    ensures forall k :: 0 <= k < |Zones| ==> totals[k] == ZoneRuns(ds, Zones[k])
  {
    seq(|Zones|, k requires 0 <= k < |Zones| => ZoneRuns(ds, Zones[k]))
  }

  /** The filter keeps every delivery that adds runs to a zone. */
  lemma {:induction false} ZoneRunsAfterFilter(ds: seq<DeliveryRecord>, zone: string)
    ensures ZoneRuns(ZoneRows(ds), zone) == ZoneRuns(ds, zone)
  {
    if |ds| > 0 {
      var prefix := ds[..|ds| - 1];
      var last := ds[|ds| - 1];
      var rows := ZoneRows(prefix);
      ZoneRunsAfterFilter(prefix, zone);
      if Scoring(last) {
        assert ZoneRows(ds) == rows + [last];
        assert (rows + [last])[..|rows|] == rows;
      } else {
        assert ZoneRows(ds) == rows;
      }
    }
  }

  lemma ZoneTotalsAfterFilter(ds: seq<DeliveryRecord>)
    ensures ZoneTotals(ZoneRows(ds)) == ZoneTotals(ds)
  {
    forall k | 0 <= k < |Zones|
      ensures ZoneTotals(ZoneRows(ds))[k] == ZoneTotals(ds)[k]
    {
      ZoneRunsAfterFilter(ds, Zones[k]);
    }
  }

  lemma {:induction false} NamedRunsAfterFilter(ds: seq<DeliveryRecord>)
    ensures NamedRuns(ZoneRows(ds)) == NamedRuns(ds)
  {
    if |ds| > 0 {
      var prefix := ds[..|ds| - 1];
      var last := ds[|ds| - 1];
      var rows := ZoneRows(prefix);
      NamedRunsAfterFilter(prefix);
      if Scoring(last) {
        assert ZoneRows(ds) == rows + [last];
        assert (rows + [last])[..|rows|] == rows;
      } else {
        assert ZoneRows(ds) == rows;
      }
    }
  }

  /** One more delivery adds its runs to its own zone, or changes nothing. */
  lemma ZoneTotalsStep(ds: seq<DeliveryRecord>, i: nat)
    requires i < |ds|
    ensures Scoring(ds[i]) && ds[i].shotDirection.value in Zones ==>
      var k := ZoneIndex(ds[i].shotDirection.value);
      ZoneTotals(ds[..i + 1]) == ZoneTotals(ds[..i])[k := ZoneTotals(ds[..i])[k] + ds[i].runs.value as real]
    ensures !(Scoring(ds[i]) && ds[i].shotDirection.value in Zones) ==> ZoneTotals(ds[..i + 1]) == ZoneTotals(ds[..i])
  {
    var before, after := ZoneTotals(ds[..i]), ZoneTotals(ds[..i + 1]);
    assert ds[..i + 1][..i] == ds[..i];
    var d := ds[i];
    if Scoring(d) && d.shotDirection.value in Zones {
      var k := ZoneIndex(d.shotDirection.value);
      forall j | 0 <= j < |Zones|
        ensures after[j] == before[k := before[k] + d.runs.value as real][j]
      {
        if j != k {
          assert Zones[j] != d.shotDirection.value;
        }
      }
    } else {
      forall j | 0 <= j < |Zones|
        ensures after[j] == before[j]
      {
      }
    }
  }

  /** The zone totals add up to the runs hit into named zones: nothing else is counted. */
  lemma {:induction false} ZoneTotalsSum(ds: seq<DeliveryRecord>)
    ensures Sum(ZoneTotals(ds)) == NamedRuns(ds)
  {
    if |ds| == 0 {
      SumOfZeros(ZoneTotals(ds));
    } else {
      var n := |ds| - 1;
      ZoneTotalsSum(ds[..n]);
      ZoneTotalsStep(ds, n);
      assert ds[..n + 1] == ds;
      var d := ds[n];
      if Scoring(d) && d.shotDirection.value in Zones {
        var k := ZoneIndex(d.shotDirection.value);
        SumUpdate(ZoneTotals(ds[..n]), k, ZoneTotals(ds[..n])[k] + d.runs.value as real);
      }
    }
  }

  /** A shot into an unnamed direction changes neither a zone nor the total. */
  lemma OtherDirectionsIgnored(ds: seq<DeliveryRecord>, d: DeliveryRecord)
    requires d.shotDirection.Some? && d.shotDirection.value !in Zones
    ensures ZoneTotals(ds + [d]) == ZoneTotals(ds)
    ensures NamedRuns(ds + [d]) == NamedRuns(ds)
  {
    assert (ds + [d])[..|ds|] == ds;
    forall k | 0 <= k < |Zones|
      ensures ZoneRuns(ds + [d], Zones[k]) == ZoneRuns(ds, Zones[k])
    {
      assert d.shotDirection.value != Zones[k];
    }
  }

  /** The accumulation loop: each scoring delivery adds its runs to its zone. */
  method AccumulateZones(rows: seq<DeliveryRecord>) returns (zones: seq<real>)
    ensures zones == ZoneTotals(rows)
  {
    zones := [0.0, 0.0, 0.0, 0.0, 0.0, 0.0, 0.0, 0.0, 0.0];
    assert zones == ZoneTotals(rows[..0]);
    for i := 0 to |rows|
      invariant zones == ZoneTotals(rows[..i])
    {
      var d := rows[i];
      ZoneTotalsStep(rows, i);
      if Scoring(d) && d.shotDirection.value in Zones {
        var k := ZoneIndex(d.shotDirection.value);
        zones := zones[k := zones[k] + d.runs.value as real];
      }
    }
    assert rows[..|rows|] == rows;
  }

  /** Each value as a percentage of `total`. */
  function Shares(s: seq<real>, total: real): (r: seq<real>)
    requires total > 0.0
    ensures |r| == |s| && forall k :: 0 <= k < |s| ==> r[k] == s[k] / total * 100.0
  {
    seq(|s|, k requires 0 <= k < |s| => s[k] / total * 100.0)
  }

  /** The conversion loop: each zone is rewritten once, in place. */
  method ConvertToShares(zones: seq<real>, total: real) returns (r: seq<real>)
    requires total > 0.0
    ensures r == Shares(zones, total)
  {
    r := zones;
    for k := 0 to |zones|
      invariant |r| == |zones|
      invariant forall j :: 0 <= j < k ==> r[j] == zones[j] / total * 100.0
      invariant forall j :: k <= j < |zones| ==> r[j] == zones[j]
    {
      r := r[k := r[k] / total * 100.0];
    }
  }

  lemma ShareOrder(a: real, b: real, total: real)
    requires total > 0.0
    ensures a < b <==> a / total * 100.0 < b / total * 100.0
  {
    if a < b {
      assert a / total < b / total;
    }
    if a / total * 100.0 < b / total * 100.0 {
      assert a / total < b / total;
      assert a / total * total == a && b / total * total == b;
    }
  }

  /** Scaling every value by the same positive factor keeps the first maximum where it was. */
  lemma SharesKeepFirstMaximum(s: seq<real>, total: real)
    requires |s| > 0 && total > 0.0
    ensures ArgMaxFirst(Shares(s, total)) == ArgMaxFirst(s)
  {
    var k := ArgMaxFirst(s);
    var shares := Shares(s, total);
    forall i | 0 <= i < |s|
      ensures shares[i] <= shares[k]
    {
      ShareOrder(s[k], s[i], total);
    }
    forall i | 0 <= i < k
      ensures shares[i] < shares[k]
    {
      ShareOrder(s[i], s[k], total);
    }
    FirstMaximumUnique(shares, k);
  }

  /** The scoring-zone report: the zone values, the favourite zone and the total runs. */
  datatype ZoneReport = ZoneReport(zones: seq<real>, favouriteZone: string, totalRuns: real)

  /**
   * Adds the runs of every scoring delivery to its zone, ignoring other
   * directions; turns the zones into percentages of the total when it is
   * positive; and names the first zone, in zone order, with the most runs,
   * or "unknown" when no runs were scored.
   */
  method ScoringZones(deliveries: seq<DeliveryRecord>) returns (report: ZoneReport)
    ensures |report.zones| == |Zones|
    ensures report.totalRuns == NamedRuns(deliveries) && report.totalRuns >= 0.0
    ensures report.totalRuns > 0.0 ==>
      forall k :: 0 <= k < |Zones| ==>
        report.zones[k] == ZoneRuns(deliveries, Zones[k]) / report.totalRuns * 100.0
    ensures report.totalRuns == 0.0 ==>
      forall k :: 0 <= k < |Zones| ==> report.zones[k] == ZoneRuns(deliveries, Zones[k])
    ensures report.favouriteZone == "unknown" <==> report.totalRuns == 0.0
    ensures report.totalRuns > 0.0 ==>
      report.favouriteZone in Zones &&
      var totals, k := ZoneTotals(deliveries), ZoneIndex(report.favouriteZone);
      (forall j :: 0 <= j < |Zones| ==> totals[j] <= totals[k]) &&
      (forall j :: 0 <= j < k ==> totals[j] < totals[k])
  {
    var rows := ZoneRows(deliveries);
    var zones := AccumulateZones(rows);
    ghost var runs := zones;
    ZoneTotalsAfterFilter(deliveries);
    var totalRuns := Sum(zones);
    ZoneTotalsSum(rows);
    NamedRunsAfterFilter(deliveries);
    var favourite := "unknown";
    if totalRuns > 0.0 {
      zones := ConvertToShares(zones, totalRuns);
      var k := ArgMaxFirst(zones);
      SharesKeepFirstMaximum(runs, totalRuns);
      ZoneIndexInverse(k);
      favourite := Zones[k];
    }
    report := ZoneReport(zones, favourite, totalRuns);
  }

  // ---------------------------------------------------------------------
  // Shot ratio
  // ---------------------------------------------------------------------

  const AggressiveShots: seq<string> := ["drive", "cut", "pull", "sweep", "loft"]
  const DefensiveShots: seq<string> := ["defense", "block", "leave"]

  /** No shot type is both aggressive and defensive. */
  lemma ShotListsDisjoint(t: string)
    ensures !(t in AggressiveShots && t in DefensiveShots)
  {
  }

  predicate OfKind(d: DeliveryRecord, kinds: seq<string>)
  {
    d.shotType.Some? && d.shotType.value in kinds
  }

  /** How many deliveries played a shot of one of `kinds`. */
  function CountOf(ds: seq<DeliveryRecord>, kinds: seq<string>): (n: nat)
    ensures n <= |ds|
  {
    if |ds| == 0 then 0
    else CountOf(ds[..|ds| - 1], kinds) + (if OfKind(ds[|ds| - 1], kinds) then 1 else 0)
  }

  /** No delivery is counted on both sides. */
  lemma {:induction false} ShotCountsBounded(ds: seq<DeliveryRecord>)
    ensures CountOf(ds, AggressiveShots) + CountOf(ds, DefensiveShots) <= |ds|
  {
    if |ds| > 0 {
      ShotCountsBounded(ds[..|ds| - 1]);
      var d := ds[|ds| - 1];
      if d.shotType.Some? {
        ShotListsDisjoint(d.shotType.value);
      }
    }
  }

  /** `p` is `part` as a percentage of `whole`: `p * whole == part * 100`. */
  predicate PercentOf(p: real, part: nat, whole: nat)
  {
    p * whole as real == part as real * 100.0
  }

  /** The shot-ratio result: the two percentages and the aggressive-to-defensive ratio. */
  datatype ShotRatio = ShotRatio(aggressivePercent: real, defensivePercent: real, ratio: real)

  /**
   * `r` describes `a` aggressive and `d` defensive shots: all zero when there
   * is neither; otherwise each kind's (non-negative) percentage of the two,
   * and the ratio `a / d`, or 999 when no shot was defensive.
   */
  predicate DescribesShots(r: ShotRatio, a: nat, d: nat)
  {
    && (a + d == 0 ==> r == ShotRatio(0.0, 0.0, 0.0))
    && (a + d > 0 ==> 0.0 <= r.aggressivePercent && 0.0 <= r.defensivePercent)
    && (a + d > 0 ==> PercentOf(r.aggressivePercent, a, a + d))
    && (a + d > 0 ==> PercentOf(r.defensivePercent, d, a + d))
    && (a + d > 0 && d == 0 ==> r.ratio == 999.0)
    && (d > 0 ==> r.ratio * d as real == a as real)
  }

  /** The result for `a` aggressive and `d` defensive shots. */
  function Ratio(a: nat, d: nat): (r: ShotRatio)
    ensures DescribesShots(r, a, d)
  {
    var total := a + d;
    if total == 0 then ShotRatio(0.0, 0.0, 0.0)
    else
      QuotientTimesDivisor(a as real, total as real);
      QuotientTimesDivisor(d as real, total as real);
      var ratio := if d > 0 then (QuotientTimesDivisor(a as real, d as real); a as real / d as real) else 999.0;
      ShotRatio(
        a as real / total as real * 100.0,
        d as real / total as real * 100.0,
        ratio)
  }

  /** The shot ratio of the recorded shots. */
  function ShotRatioOf(ds: seq<DeliveryRecord>): (r: ShotRatio)
    ensures DescribesShots(r, CountOf(ds, AggressiveShots), CountOf(ds, DefensiveShots))
  {
    Ratio(CountOf(ds, AggressiveShots), CountOf(ds, DefensiveShots))
  }

  /** When some shot is of either kind, the two percentages make up the whole. */
  lemma SharesMakeHundred(a: nat, d: nat)
    requires a + d > 0
    ensures Ratio(a, d).aggressivePercent + Ratio(a, d).defensivePercent == 100.0
  {
    var t := (a + d) as real;
    var x, y := a as real / t, d as real / t;
    QuotientTimesDivisor(a as real, t);
    QuotientTimesDivisor(d as real, t);
    assert (x + y) * t == x * t + y * t;
    FactorOfZeroProduct(x + y - 1.0, t);
  }

  lemma FactorOfZeroProduct(z: real, t: real)
    requires t > 0.0 && z * t == 0.0
    ensures z == 0.0
  {
  }

  /** A shot of neither kind, or none recorded, leaves the result unchanged. */
  lemma OtherShotsIgnored(ds: seq<DeliveryRecord>, d: DeliveryRecord)
    requires !OfKind(d, AggressiveShots) && !OfKind(d, DefensiveShots)
    ensures ShotRatioOf(ds + [d]) == ShotRatioOf(ds)
  {
    assert (ds + [d])[..|ds|] == ds;
  }

  // ---------------------------------------------------------------------
  // Comparison with professional batsmen
  // ---------------------------------------------------------------------

  /** A professional batsman's profile. */
  datatype BatsmanProfile = BatsmanProfile(
    name: string,
    avgStrikeRate: real,
    favoredZones: seq<string>,
    timingScore: real)

  /** The built-in profile table. */
  const ProfessionalBatsmen: seq<BatsmanProfile> := [
    BatsmanProfile("Virat Kohli", 93.5, ["cover", "midwicket"], 85.0),
    BatsmanProfile("Rohit Sharma", 89.2, ["off_side", "straight"], 82.0)
  ]

  /** The delivery's shot timing, 50 when missing or zero. */
  function Timing(d: DeliveryRecord): real
  {
    OrReal(d.shotTiming, 50.0)
  }

  /**
   * Similarity on timing alone: 100 less the timing difference, never below
   * 0. It is 100 exactly at the professional's timing and 0 exactly when the
   * timings are 100 or more apart.
   */
  function BatsmanSimilarity(d: DeliveryRecord, pro: BatsmanProfile): (s: real)
    ensures 0.0 <= s <= 100.0
    ensures s == 100.0 <==> Timing(d) == pro.timingScore
    ensures s == 0.0 <==> Abs(Timing(d) - pro.timingScore) >= 100.0
  {
    Max(0.0, 100.0 - Abs(Timing(d) - pro.timingScore))
  }

  /** A professional whose timing is closer is never less similar. */
  lemma CloserTimingIsMoreSimilar(d: DeliveryRecord, nearer: BatsmanProfile, farther: BatsmanProfile)
    requires Abs(Timing(d) - nearer.timingScore) <= Abs(Timing(d) - farther.timingScore)
    ensures BatsmanSimilarity(d, nearer) >= BatsmanSimilarity(d, farther)
  {
  }

  /** One result per profile, in table order. */
  function BatsmanMatches(d: DeliveryRecord, pros: seq<BatsmanProfile>): (ms: seq<Match>)
    ensures |ms| == |pros|
    ensures forall i :: 0 <= i < |pros| ==>
      ms[i] == Match(pros[i].name, BatsmanSimilarity(d, pros[i]), pros[i].avgStrikeRate)
  {
    seq(|pros|, i requires 0 <= i < |pros| =>
      Match(pros[i].name, BatsmanSimilarity(d, pros[i]), pros[i].avgStrikeRate))
  }

  /**
   * Scores the delivery against every profile (`ProfessionalBatsmen` in the
   * source), sorts the results by similarity and reports the best match and
   * the first three.
   */
  method CompareToProfessional(d: DeliveryRecord, pros: seq<BatsmanProfile>) returns (comparison: Comparison)
    ensures RankedFrom(comparison, BatsmanMatches(d, pros))
    ensures forall m :: m in comparison.allMatches ==> 0.0 <= m.similarity <= 100.0
  {
    var results: seq<Match> := [];
    for i := 0 to |pros|
      invariant results == BatsmanMatches(d, pros[..i])
    {
      results := results + [Match(pros[i].name, BatsmanSimilarity(d, pros[i]), pros[i].avgStrikeRate)];
    }
    assert pros[..|pros|] == pros;
    ghost var scored := results;
    RankMatches(scored);
    results := SortBySimilarity(results);
    comparison := Summarise(results);
  }
}
