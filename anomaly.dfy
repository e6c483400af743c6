/** The anomaly detector (app/detection/anomaly_detector.py): a trained /
    untrained gate around an isolation forest, whose fitting and queries are
    external and appear here only as function values. */
module Anomaly {
  import opened Wrappers
  import opened Numerics
  import opened Features

  /** One row of the frame handed to the forest: the five model features. */
  datatype Sample = Sample(
    avgPressure: real,
    pressureDropRate: real,
    avgFlow: real,
    flowStdDev: real,
    acousticPeak: real)

  /** A fitted forest, seen only through its two queries on a one-row frame:
      `predictLabel` (-1 for an anomaly, 1 for normal) and `decision` (the decision
      function; lower is more anomalous). The two are not assumed consistent. */
  datatype Forest = Forest(predictLabel: Sample -> int, decision: Sample -> real)

  function ToSample(f: FeatureVector): Sample
  {
    Sample(f.avgPressure, f.pressureDropRate, f.avgFlow, f.flowStdDev, f.acousticPeak)
  }

  /** The frame `_prepare_data` builds: one row per feature vector, in order. */
  function Samples(data: seq<FeatureVector>): seq<Sample>
  {
    seq(|data|, i requires 0 <= i < |data| => ToSample(data[i]))
  }

  /** The heuristic map from a decision value to a score in [0, 1]:
      0 for a non-negative value, five times its magnitude below 0, and
      saturated at 1 from -0.2 down. */
  function NormalizeScore(d: real): (s: real)
    ensures 0.0 <= s <= 1.0
    ensures d >= 0.0 ==> s == 0.0
    ensures -0.2 < d < 0.0 ==> s == 5.0 * (0.0 - d)
    ensures d <= -0.2 ==> s == 1.0
  {
    var m := Min(0.0, d);
    Min(1.0, (if m < 0.0 then -m else m) * 5.0)
  }

  /** A more anomalous decision value never yields a lower score. */
  lemma NormalizeScoreAntitone(d1: real, d2: real)
    requires d1 <= d2
    ensures NormalizeScore(d1) >= NormalizeScore(d2)
  {
  }

  /** A trained forest's answer for one feature vector. */
  function Verdict(forest: Forest, f: FeatureVector): (r: (bool, real))
    ensures r.0 <==> forest.predictLabel(ToSample(f)) == -1
    ensures 0.0 <= r.1 <= 1.0
    ensures r.1 == NormalizeScore(forest.decision(ToSample(f)))
  {
    var row := ToSample(f);
    (forest.predictLabel(row) == -1, NormalizeScore(forest.decision(row)))
  }

  /** The verdict and the score come from separate queries: a forest may flag
      a row whose decision value is positive, giving (true, 0.0). */
  lemma VerdictAndScoreAreIndependent(f: FeatureVector)
    ensures Verdict(Forest(_ => -1, _ => 0.3), f) == (true, 0.0)
    ensures Verdict(Forest(_ => 1, _ => -0.5), f) == (false, 1.0)
  {
  }

  class AnomalyDetector {
    /** The fitted forest; None until the first non-empty training call. */
    var model: Option<Forest>
    var isTrained: bool

    ghost predicate Valid()
      reads this
    {
      isTrained <==> model.Some?
    }

    constructor ()
      ensures Valid() && !isTrained
    {
      model := None;
      isTrained := false;
    }

    /** `_prepare_data`: one row per feature vector, appended in order. */
    method PrepareData(data: seq<FeatureVector>) returns (records: seq<Sample>)
      ensures |records| == |data|
      ensures forall i :: 0 <= i < |data| ==> records[i] == ToSample(data[i])
    {
      records := [];
      for i := 0 to |data|
        invariant |records| == i
        invariant forall j :: 0 <= j < i ==> records[j] == ToSample(data[j])
      {
        records := records + [ToSample(data[i])];
      }
    }

    /** `train`: an empty history changes nothing; otherwise the forest is
        refitted on the history's rows and the detector becomes trained.
        Nothing ever makes a trained detector untrained. */
    method Train(history: seq<FeatureVector>, fit: seq<Sample> -> Forest)
      requires Valid()
      modifies this
      ensures Valid()
      ensures |history| == 0 ==> model == old(model) && isTrained == old(isTrained)
      ensures |history| > 0 ==> isTrained && model == Some(fit(Samples(history)))
      ensures old(isTrained) ==> isTrained
    {
      if |history| == 0 {
        return;
      }
      var frame := PrepareData(history);
      assert frame == Samples(history);
      model := Some(fit(frame));
      isTrained := true;
    }

    /** `predict`: (false, 0.0) while untrained; otherwise the forest's verdict
        with its score normalized into [0, 1]. */
    function Predict(f: FeatureVector): (r: (bool, real))
      reads this
      requires Valid()
      ensures !isTrained ==> r == (false, 0.0)
      ensures 0.0 <= r.1 <= 1.0
      ensures isTrained ==> r == Verdict(model.value, f)
    {
      if !isTrained then (false, 0.0)
      else Verdict(model.value, f)
    }
  }
}
