/** The arithmetic of the analytics endpoints (app/analytics/router.py): the
    water-loss estimate over stored readings and the per-segment risk score.
    The database queries are not modelled; their results are inputs. */
module Analytics {
  import opened Numerics
  import opened Readings
  import opened Localization

  // ---------------------------------------------------------------------------
  // Water loss

  /** A stored sensor reading as the loss loop sees it: its flow and the
      mode column's text. */
  datatype StoredReading = StoredReading(flowRate: real, mode: string)

  /** Baseline flow in L/min. */
  const BaselineFlow: real := 100.0

  /** Dollars per litre ($1.50 per 1000 litres). */
  const CostPerLiter: real := 0.0015

  /** The readings the loss query keeps: those whose mode is not "normal",
      in query order, each as many times as it is stored. */
  function LossQuery(rows: seq<StoredReading>): (kept: seq<StoredReading>)
    ensures |kept| <= |rows|
    ensures forall i :: 0 <= i < |kept| ==> kept[i].mode != "normal" && kept[i] in rows
    ensures forall r :: r in rows && r.mode != "normal" ==> r in kept
    ensures forall r :: multiset(kept)[r] == if r.mode != "normal" then multiset(rows)[r] else 0
  {
    if |rows| == 0 then []
    else
      var init := LossQuery(rows[..|rows| - 1]);
      var last := rows[|rows| - 1];
      assert rows == rows[..|rows| - 1] + [last];
      assert forall r :: r in rows ==> r in rows[..|rows| - 1] || r == last;
      if last.mode != "normal" then init + [last] else init
  }

  /** The baseline a reading is compared against: 20 L/min (a fifth of the
      baseline) in a major burst, 100 L/min otherwise. */
  function BaselineFor(mode: string): real
  {
    if mode == "major_burst" then BaselineFlow * 0.2 else BaselineFlow
  }

  /** One reading's loss in litres: its flow above the baseline, never
      negative, over the 60 seconds a minute holds. */
  function LossOf(r: StoredReading): (l: real)
    ensures l >= 0.0
    ensures r.flowRate <= BaselineFor(r.mode) ==> l == 0.0
    ensures r.flowRate > BaselineFor(r.mode) ==> l == (r.flowRate - BaselineFor(r.mode)) / 60.0
  {
    Max(0.0, r.flowRate - BaselineFor(r.mode)) / 60.0
  }

  /** The accumulated loss over `rows`, summed in order. */
  function LossSum(rows: seq<StoredReading>): real
  {
    if |rows| == 0 then 0.0
    else LossSum(rows[..|rows| - 1]) + LossOf(rows[|rows| - 1])
  }

  /** The total loss is never negative. */
  lemma {:induction false} LossSumNonNegative(rows: seq<StoredReading>)
    ensures LossSum(rows) >= 0.0
  {
    if |rows| > 0 {
      LossSumNonNegative(rows[..|rows| - 1]);
    }
  }

  /** The loss of a concatenation is the sum of the losses: the order and
      grouping of readings do not matter. */
  lemma {:induction false} LossSumAppend(a: seq<StoredReading>, b: seq<StoredReading>)
    ensures LossSum(a + b) == LossSum(a) + LossSum(b)
  {
    if |b| > 0 {
      var b' := b[..|b| - 1];
      assert (a + b)[..|a + b| - 1] == a + b';
      LossSumAppend(a, b');
    } else {
      assert a + b == a;
    }
  }

  /** More readings never lower the total. */
  lemma LossSumGrows(a: seq<StoredReading>, b: seq<StoredReading>)
    ensures LossSum(a + b) >= LossSum(a)
  {
    LossSumAppend(a, b);
    LossSumNonNegative(b);
  }

  /** A reading in "normal" mode never reaches the loss: adding one to the
      stored readings leaves the estimate unchanged, whatever its flow. */
  lemma NormalReadingAddsNoLoss(rows: seq<StoredReading>, r: StoredReading)
    requires r.mode == "normal"
    ensures LossSum(LossQuery(rows + [r])) == LossSum(LossQuery(rows))
  {
    assert (rows + [r])[..|rows|] == rows;
  }

  /** A simulated reading as the database stores it. */
  function Stored(r: SensorData): StoredReading
  {
    StoredReading(r.flowRate, ModeName(r.mode))
  }

  /** For simulated readings: the query keeps exactly the non-normal ones,
      and the baseline is 20 L/min exactly for a major burst. */
  lemma StoredReadingLoss(r: SensorData)
    ensures LossQuery([Stored(r)]) == (if r.mode == Normal then [] else [Stored(r)])
    ensures BaselineFor(Stored(r).mode) == (if r.mode == MajorBurst then 20.0 else 100.0)
  {
    ModeNameInjective(r.mode, Normal);
    ModeNameInjective(r.mode, MajorBurst);
    assert [Stored(r)][..0] == [];
  }

  /** The loss loop of `get_analytics_summary`: accumulate each queried
      reading's loss, then price it. */
  method EstimateLoss(readings: seq<StoredReading>) returns (totalLossLiters: real, financialLoss: real)
    ensures totalLossLiters == LossSum(readings)
    ensures financialLoss == totalLossLiters * CostPerLiter
    ensures totalLossLiters >= 0.0 && financialLoss >= 0.0
  {
    totalLossLiters := 0.0;
    for i := 0 to |readings|
      invariant totalLossLiters == LossSum(readings[..i])
    {
      var r := readings[i];
      var loss;
      if r.mode == "major_burst" {
        loss := Max(0.0, r.flowRate - BaselineFlow * 0.2);
      } else {
        loss := Max(0.0, r.flowRate - BaselineFlow);
      }
      assert readings[..i + 1][..i] == readings[..i];
      totalLossLiters := totalLossLiters + loss / 60.0;
    }
    assert readings[..|readings|] == readings;
    LossSumNonNegative(readings);
    financialLoss := totalLossLiters * CostPerLiter;
  }

  /** The two loss figures of the summary, rounded to cents and hundredths of
      a litre, over the readings the query keeps; both are non-negative. */
  method LossSummary(rows: seq<StoredReading>) returns (liters: real, usd: real)
    ensures liters == Round(LossSum(LossQuery(rows)), 2)
    ensures usd == Round(LossSum(LossQuery(rows)) * CostPerLiter, 2)
    ensures liters >= 0.0 && usd >= 0.0
  {
    var total, financial := EstimateLoss(LossQuery(rows));
    RoundNonNegative(total, 2);
    RoundNonNegative(financial, 2);
    liters := Round(total, 2);
    usd := Round(financial, 2);
  }

  // ---------------------------------------------------------------------------
  // Risk assessment

  /** The segments assessed, in order. */
  const RiskSegments: seq<Segment> := [("Tank", "A"), ("A", "B"), ("A", "C"), ("C", "D")]

  /** The assessed segments are the pipes of the network, in the same order. */
  lemma RiskSegmentsArePipes()
    ensures |RiskSegments| == |NetworkPipes|
    ensures forall i :: 0 <= i < |RiskSegments| ==> RiskSegments[i] == (NetworkPipes[i].u, NetworkPipes[i].v)
  {
  }

  datatype RiskStatus = Safe | Warning | Critical

  datatype SegmentRisk = SegmentRisk(score: int, status: RiskStatus, incidents: nat)

  /** 25 points per historical alert over a base risk of 10, capped at 100. */
  function RiskScore(alertCount: nat): (s: int)
    ensures 10 <= s <= 100
    ensures alertCount <= 3 ==> s == 25 * alertCount + 10
    ensures alertCount >= 4 ==> s == 100
  {
    if 25 * alertCount + 10 <= 100 then 25 * alertCount + 10 else 100
  }

  /** Above 70 is Critical, above 40 Warning, anything else Safe. */
  function StatusOf(score: int): (st: RiskStatus)
    ensures st == Critical <==> score > 70
    ensures st == Warning <==> 40 < score <= 70
    ensures st == Safe <==> score <= 40
  {
    if score > 70 then Critical
    else if score > 40 then Warning
    else Safe
  }

  function RiskOf(alertCount: nat): SegmentRisk
  {
    var score := RiskScore(alertCount);
    SegmentRisk(score, StatusOf(score), alertCount)
  }

  /** In alert counts: none or one alert is Safe, two (score 60) a Warning,
      three or more Critical. */
  lemma StatusByAlertCount(alertCount: nat)
    ensures RiskOf(alertCount).status == Safe <==> alertCount <= 1
    ensures RiskOf(alertCount).status == Warning <==> alertCount == 2
    ensures alertCount == 2 ==> RiskOf(alertCount).score == 60
    ensures RiskOf(alertCount).status == Critical <==> alertCount >= 3
  {
  }

  /** The key of a segment: its two nodes joined by a hyphen. */
  function SegmentId(seg: Segment): string
  {
    seg.0 + "-" + seg.1
  }

  /** The keys of the assessed segments, in order. */
  const RiskSegmentIds: seq<string> := ["Tank-A", "A-B", "A-C", "C-D"]

  /** The four keys are the segments' ids, and no two coincide. */
  lemma RiskSegmentIdsAreDistinct()
    ensures |RiskSegmentIds| == |RiskSegments|
    ensures forall i :: 0 <= i < |RiskSegments| ==> SegmentId(RiskSegments[i]) == RiskSegmentIds[i]
    ensures forall i, j :: 0 <= i < j < |RiskSegmentIds| ==> RiskSegmentIds[i] != RiskSegmentIds[j]
  {
    assert SegmentId(RiskSegments[0]) == "Tank-A";
    assert SegmentId(RiskSegments[1]) == "A-B";
    assert SegmentId(RiskSegments[2]) == "A-C";
    assert SegmentId(RiskSegments[3]) == "C-D";
    assert RiskSegmentIds[1][2] != RiskSegmentIds[2][2];
  }

  /** `get_risk_assessment`: exactly one entry per segment, keyed "u-v". The alert
      count of each segment (the database query) is the input `alertCount`. */
  method RiskAssessment(alertCount: Segment -> nat) returns (riskData: map<string, SegmentRisk>)
    ensures forall key :: key in riskData <==> key in RiskSegmentIds
    ensures forall i :: 0 <= i < |RiskSegments| ==>
              && SegmentId(RiskSegments[i]) in riskData
              && riskData[SegmentId(RiskSegments[i])] == RiskOf(alertCount(RiskSegments[i]))
  {
    RiskSegmentIdsAreDistinct();
    riskData := map[];
    for i := 0 to |RiskSegments|
      invariant forall key :: key in riskData ==> key in RiskSegmentIds[..i]
      invariant forall k :: 0 <= k < i ==>
                  RiskSegmentIds[k] in riskData && riskData[RiskSegmentIds[k]] == RiskOf(alertCount(RiskSegments[k]))
    {
      var (u, v) := RiskSegments[i];
      var segmentId := SegmentId((u, v));
      var count := alertCount((u, v));
      var score := RiskScore(count);
      var status := Safe;
      if score > 70 {
        status := Critical;
      } else if score > 40 {
        status := Warning;
      }
      assert segmentId == RiskSegmentIds[i];
      assert SegmentRisk(score, status, count) == RiskOf(alertCount(RiskSegments[i]));
      assert RiskSegmentIds[..i + 1] == RiskSegmentIds[..i] + [RiskSegmentIds[i]];
      riskData := riskData[segmentId := SegmentRisk(score, status, count)];
    }
    assert RiskSegmentIds[..|RiskSegments|] == RiskSegmentIds;
    forall i | 0 <= i < |RiskSegments|
      ensures SegmentId(RiskSegments[i]) in riskData
      ensures riskData[SegmentId(RiskSegments[i])] == RiskOf(alertCount(RiskSegments[i]))
    {
      assert SegmentId(RiskSegments[i]) == RiskSegmentIds[i];
    }
  }
}
