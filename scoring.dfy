/** The severity scorer (app/detection/scoring.py): a weighted sum of three
    sub-scores, capped at 100, rounded to two decimals and classified. */
module Scoring {
  import opened Numerics
  import opened Features

  /** Calibration constants of `SeverityScorer`. */
  const BasePressure: real := 5.0
  const BaseFlow: real := 100.0
  const MaxAcoustic: real := 60.0

  datatype Severity = Minor | Moderate | Critical

  /** Pressure drop below the baseline, in percent; floored at 0 but not capped. */
  function PressureDropPct(avgPressure: real): (t: real)
    ensures t >= 0.0
    ensures avgPressure >= BasePressure ==> t == 0.0
  {
    Max(0.0, (BasePressure - avgPressure) / BasePressure) * 100.0
  }

  /** Flow standard deviation relative to the baseline flow, in percent; capped at 100. */
  function FlowDeviationPct(flowStdDev: real): (t: real)
    ensures t <= 100.0
    ensures flowStdDev >= 0.0 ==> t >= 0.0
  {
    Min(100.0, (flowStdDev / BaseFlow) * 100.0)
  }

  /** Acoustic peak relative to the burst level, in percent; capped at 100. */
  function AcousticIntensity(acousticPeak: real): (t: real)
    ensures t <= 100.0
    ensures acousticPeak >= 0.0 ==> t >= 0.0
  {
    Min(100.0, (acousticPeak / MaxAcoustic) * 100.0)
  }

  /** The weighted sum before the cap and the rounding. */
  function WeightedSum(f: FeatureVector): real
  {
    PressureDropPct(f.avgPressure) * 0.5
      + FlowDeviationPct(f.flowStdDev) * 0.3
      + AcousticIntensity(f.acousticPeak) * 0.2
  }

  /** The category of a (rounded) score; the boundaries 30 and 60 belong to
      the higher category. */
  function Classify(score: real): (c: Severity)
    ensures c == Minor <==> score < 30.0
    ensures c == Moderate <==> 30.0 <= score < 60.0
    ensures c == Critical <==> 60.0 <= score
  {
    if score < 30.0 then Minor
    else if score < 60.0 then Moderate
    else Critical
  }

  lemma RoundHundred()
    ensures Round(100.0, 2) == 100.0
  {
    RoundOnGrid(10000, 2);
  }

  /** `SeverityScorer.calculate`: the score never exceeds 100, is never negative
      when the flow deviation and the acoustic peak are not, and the category
      is taken from the rounded score. */
  function Calculate(f: FeatureVector): (r: (real, Severity))
    ensures r.0 <= 100.0
    ensures f.flowStdDev >= 0.0 && f.acousticPeak >= 0.0 ==> r.0 >= 0.0
    ensures r.1 == Classify(r.0)
  {
    var capped := Min(100.0, WeightedSum(f));
    RoundMonotone(capped, 100.0, 2);
    RoundHundred();
    RoundNonNegative(capped, 2);
    var score := Round(capped, 2);
    (score, Classify(score))
  }

  /** Lowering the average pressure, all else equal, never lowers the score. */
  lemma ScoreMonotoneInPressure(f: FeatureVector, lower: real, higher: real)
    requires lower <= higher
    ensures Calculate(f.(avgPressure := lower)).0 >= Calculate(f.(avgPressure := higher)).0
  {
    var lo, hi := f.(avgPressure := lower), f.(avgPressure := higher);
    DivMonotone(BasePressure - higher, BasePressure - lower, BasePressure);
    assert PressureDropPct(lower) >= PressureDropPct(higher);
    assert WeightedSum(lo) >= WeightedSum(hi);
    RoundMonotone(Min(100.0, WeightedSum(hi)), Min(100.0, WeightedSum(lo)), 2);
  }

  /** Once the weighted sum reaches 100 the score saturates at exactly 100,
      which is Critical. */
  lemma ScoreSaturates(f: FeatureVector)
    requires WeightedSum(f) >= 100.0
    ensures Calculate(f) == (100.0, Critical)
  {
    RoundHundred();
  }

  /** A quiet window (baseline pressure, steady flow, acoustic 10) scores
      0 + 0 + 0.2 * (10 / 60 * 100) = 3.33, which is Minor. */
  lemma QuietWindowScore(f: FeatureVector)
    requires f.avgPressure == 5.0 && f.flowStdDev == 0.0 && f.acousticPeak == 10.0
    ensures Calculate(f) == (3.33, Minor)
  {
    assert WeightedSum(f) == 10.0 / 3.0;
    assert (10.0 / 3.0) * 100.0 == 1000.0 / 3.0;
    assert (1000.0 / 3.0).Floor == 333;
    assert Round(10.0 / 3.0, 2) == 333.0 / 100.0;
  }

  /** Each clamp is one-sided: the pressure term is floored at 0 but can
      exceed 100 (a negative average pressure), and the flow and acoustic
      terms are capped at 100 but go negative with a negative input. */
  lemma OneSidedClamps()
    ensures PressureDropPct(-5.0) == 200.0
    ensures FlowDeviationPct(-10.0) == -10.0
    ensures AcousticIntensity(-6.0) == -10.0
  {
  }
}
