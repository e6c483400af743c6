/** The feature extractor (app/detection/features.py): reduces a window of
    readings to a FeatureVector (app/detection/models.py). */
module Features {
  import opened Wrappers
  import opened Numerics
  import opened Readings

  /** The square root used by `statistics.stdev`. The model only relies on it
      being non-negative on non-negative inputs and zero exactly at zero. */
  type Root = f: real -> real | forall x :: 0.0 <= x ==> 0.0 <= f(x) && (f(x) == 0.0 <==> x == 0.0)
    witness (x: real) => if x < 0.0 then 0.0 else x

  datatype FeatureVector = FeatureVector(
    windowStart: Timestamp,
    windowEnd: Timestamp,
    avgPressure: real,
    pressureDropRate: real,
    avgFlow: real,
    flowStdDev: real,
    acousticPeak: real,
    sampleCount: nat)

  /** The `ValueError` raised for an empty window. */
  datatype ExtractError = EmptyWindow

  // ---------------------------------------------------------------------------
  // Statistics over a sequence of reals

  /** Sum of the values, accumulated left to right. */
  function Sum(xs: seq<real>): real
  {
    if |xs| == 0 then 0.0 else Sum(xs[..|xs| - 1]) + xs[|xs| - 1]
  }

  /** `statistics.mean`. */
  function Mean(xs: seq<real>): real
    requires |xs| > 0
  {
    Sum(xs) / |xs| as real
  }

  /** Sum of squared distances from `m`. */
  function SumSquares(xs: seq<real>, m: real): real
  {
    if |xs| == 0 then 0.0
    else SumSquares(xs[..|xs| - 1], m) + Square(xs[|xs| - 1] - m)
  }

  function Square(d: real): real { d * d }

  /** The sample variance `statistics.stdev` takes the root of (divisor N - 1). */
  function SampleVariance(xs: seq<real>): real
    requires |xs| > 1
  {
    SumSquares(xs, Mean(xs)) / (|xs| - 1) as real
  }

  /** `max(xs)`: an element of the sequence that no element exceeds. */
  function MaxOf(xs: seq<real>): (m: real)
    requires |xs| > 0
    ensures exists i :: 0 <= i < |xs| && xs[i] == m
    ensures forall i :: 0 <= i < |xs| ==> xs[i] <= m
  {
    if |xs| == 1 then xs[0]
    else
      var best := MaxOf(xs[..|xs| - 1]);
      if xs[|xs| - 1] > best then xs[|xs| - 1] else best
  }

  /** The least element of the sequence (used only to state bounds). */
  function MinOf(xs: seq<real>): (m: real)
    requires |xs| > 0
    ensures exists i :: 0 <= i < |xs| && xs[i] == m
    ensures forall i :: 0 <= i < |xs| ==> m <= xs[i]
  {
    if |xs| == 1 then xs[0]
    else
      var least := MinOf(xs[..|xs| - 1]);
      if xs[|xs| - 1] < least then xs[|xs| - 1] else least
  }

  /** The channel columns of a window. */
  function Pressures(data: seq<SensorData>): seq<real>
  {
    seq(|data|, i requires 0 <= i < |data| => data[i].pressure)
  }

  function Flows(data: seq<SensorData>): seq<real>
  {
    seq(|data|, i requires 0 <= i < |data| => data[i].flowRate)
  }

  function Acoustics(data: seq<SensorData>): seq<real>
  {
    seq(|data|, i requires 0 <= i < |data| => data[i].acousticSignal)
  }

  /** First value minus last value, over the number of values. */
  function Slope(xs: seq<real>): real
    requires |xs| > 0
  {
    (xs[0] - xs[|xs| - 1]) / |xs| as real
  }

  // ---------------------------------------------------------------------------
  // Extraction

  /** `extract_from_window`: means, a first-minus-last slope over N, the sample
      standard deviation of flow, the acoustic peak and the sample count, each
      rounded as the source rounds it. An empty window is an error. */
  function ExtractFromWindow(data: seq<SensorData>, root: Root): (r: Result<FeatureVector, ExtractError>)
    ensures r.Failure? <==> |data| == 0
    ensures r.Success? ==>
      && r.value.sampleCount == |data|
      && r.value.windowStart == data[0].timestamp
      && r.value.windowEnd == data[|data| - 1].timestamp
  {
    if |data| == 0 then Failure(EmptyWindow)
    else
      var pressures, flows, acoustics := Pressures(data), Flows(data), Acoustics(data);
      var n := |data|;
      var dropRate := if n > 1 then Slope(pressures) else 0.0;
      var stdDev := if n > 1 then root(SampleVariance(flows)) else 0.0;
      Success(FeatureVector(
        windowStart := data[0].timestamp,
        windowEnd := data[n - 1].timestamp,
        avgPressure := Round(Mean(pressures), 3),
        pressureDropRate := Round(dropRate, 4),
        avgFlow := Round(Mean(flows), 2),
        flowStdDev := Round(stdDev, 3),
        acousticPeak := Round(MaxOf(acoustics), 2),
        sampleCount := n))
  }

  // ---------------------------------------------------------------------------
  // Properties of the statistics

  lemma {:induction false} SumBounds(xs: seq<real>, lo: real, hi: real)
    requires forall i :: 0 <= i < |xs| ==> lo <= xs[i] <= hi
    ensures |xs| as real * lo <= Sum(xs) <= |xs| as real * hi
  {
    if |xs| > 0 {
      var init := xs[..|xs| - 1];
      assert forall i :: 0 <= i < |init| ==> init[i] == xs[i];
      SumBounds(init, lo, hi);
      assert |xs| as real * lo == |init| as real * lo + lo;
      assert |xs| as real * hi == |init| as real * hi + hi;
    }
  }

  lemma DivideBounds(s: real, n: real, lo: real, hi: real)
    requires n > 0.0 && n * lo <= s <= n * hi
    ensures lo <= s / n <= hi
  {
    assert s / n - lo == (s - n * lo) / n;
    assert hi - s / n == (n * hi - s) / n;
  }

  /** The mean lies between any bounds on the values, in particular between
      the least and the greatest value. */
  lemma MeanBetween(xs: seq<real>, lo: real, hi: real)
    requires |xs| > 0
    requires forall i :: 0 <= i < |xs| ==> lo <= xs[i] <= hi
    ensures lo <= Mean(xs) <= hi
  {
    SumBounds(xs, lo, hi);
    DivideBounds(Sum(xs), |xs| as real, lo, hi);
  }

  lemma MeanWithinRange(xs: seq<real>)
    requires |xs| > 0
    ensures MinOf(xs) <= Mean(xs) <= MaxOf(xs)
  {
    MeanBetween(xs, MinOf(xs), MaxOf(xs));
  }

  lemma {:induction false} SumSquaresNonNegative(xs: seq<real>, m: real)
    ensures SumSquares(xs, m) >= 0.0
  {
    if |xs| > 0 {
      SumSquaresNonNegative(xs[..|xs| - 1], m);
      SquareZero(xs[|xs| - 1] - m);
    }
  }

  lemma SquareZero(d: real)
    ensures Square(d) >= 0.0
    ensures d != 0.0 ==> Square(d) > 0.0
    ensures d == 0.0 ==> Square(d) == 0.0
  {
    calc { Square(d); == d * d; >= 0.0; }
    if d != 0.0 {
      calc { Square(d); == d * d; > 0.0; }
    }
  }

  /** The squared distances sum to zero exactly when every value equals `m`. */
  lemma {:induction false} SumSquaresZero(xs: seq<real>, m: real)
    ensures SumSquares(xs, m) == 0.0 <==> forall i :: 0 <= i < |xs| ==> xs[i] == m
  {
    if |xs| > 0 {
      var init, d := xs[..|xs| - 1], xs[|xs| - 1] - m;
      SumSquaresZero(init, m);
      SumSquaresNonNegative(init, m);
      SquareZero(d);
      assert SumSquares(xs, m) == SumSquares(init, m) + Square(d);
      assert (forall i :: 0 <= i < |xs| ==> xs[i] == m)
         <==> (forall i :: 0 <= i < |init| ==> init[i] == m) && d == 0.0;
      if d == 0.0 {
        assert SumSquares(xs, m) == SumSquares(init, m);
      } else {
        assert SumSquares(xs, m) > 0.0;
      }
    }
  }

  /** The sample variance is never negative, and it is zero exactly when all
      values are equal. */
  lemma VarianceZeroIffConstant(xs: seq<real>)
    requires |xs| > 1
    ensures SampleVariance(xs) >= 0.0
    ensures SampleVariance(xs) == 0.0 <==> forall i :: 0 <= i < |xs| ==> xs[i] == xs[0]
  {
    var m := Mean(xs);
    var n := (|xs| - 1) as real;
    SumSquaresNonNegative(xs, m);
    SumSquaresZero(xs, m);
    assert SampleVariance(xs) == SumSquares(xs, m) / n;
    assert SumSquares(xs, m) / n == 0.0 <==> SumSquares(xs, m) == 0.0;
    if forall i :: 0 <= i < |xs| ==> xs[i] == xs[0] {
      MeanBetween(xs, xs[0], xs[0]);
    }
  }

  // ---------------------------------------------------------------------------
  // Properties of the extracted features

  /** A one-reading window has no slope and no spread. */
  lemma SingleReadingWindow(r: SensorData, root: Root)
    ensures ExtractFromWindow([r], root).Success?
    ensures ExtractFromWindow([r], root).value.pressureDropRate == 0.0
    ensures ExtractFromWindow([r], root).value.flowStdDev == 0.0
  {
    RoundZero(4);
    RoundZero(3);
  }

  /** The slope has the sign of first minus last: positive exactly when the
      values fell, negative exactly when they rose. */
  lemma SlopeSign(xs: seq<real>)
    requires |xs| > 0
    ensures xs[0] >= xs[|xs| - 1] ==> Slope(xs) >= 0.0
    ensures xs[0] <= xs[|xs| - 1] ==> Slope(xs) <= 0.0
    ensures xs[0] > xs[|xs| - 1] <==> Slope(xs) > 0.0
    ensures xs[0] < xs[|xs| - 1] <==> Slope(xs) < 0.0
  {
    var n, d := |xs| as real, xs[0] - xs[|xs| - 1];
    if d >= 0.0 { DivMonotone(0.0, d, n); }
    if d <= 0.0 { DivMonotone(d, 0.0, n); }
  }

  /** For two or more readings the slope is the first pressure minus the last,
      over the sample count; it is non-negative when pressure fell (or stayed
      level) and non-positive when it rose. */
  lemma DropRateOfWindow(data: seq<SensorData>, root: Root)
    requires |data| > 1
    ensures ExtractFromWindow(data, root).Success?
    ensures ExtractFromWindow(data, root).value.pressureDropRate
         == Round((data[0].pressure - data[|data| - 1].pressure) / |data| as real, 4)
    ensures data[0].pressure >= data[|data| - 1].pressure ==>
              ExtractFromWindow(data, root).value.pressureDropRate >= 0.0
    ensures data[0].pressure <= data[|data| - 1].pressure ==>
              ExtractFromWindow(data, root).value.pressureDropRate <= 0.0
  {
    var ps := Pressures(data);
    var slope := Slope(ps);
    assert ExtractFromWindow(data, root).value.pressureDropRate == Round(slope, 4);
    SlopeSign(ps);
    RoundZero(4);
    if slope >= 0.0 { RoundMonotone(0.0, slope, 4); }
    if slope <= 0.0 { RoundMonotone(slope, 0.0, 4); }
  }

  /** The acoustic peak is (the rounding of) one of the window's acoustic
      signals, and no signal in the window rounds above it. */
  lemma AcousticPeakIsMaximum(data: seq<SensorData>, root: Root)
    requires |data| > 0
    ensures ExtractFromWindow(data, root).Success?
    ensures exists i :: 0 <= i < |data| &&
              ExtractFromWindow(data, root).value.acousticPeak == Round(data[i].acousticSignal, 2)
    ensures forall j :: 0 <= j < |data| ==>
              Round(data[j].acousticSignal, 2) <= ExtractFromWindow(data, root).value.acousticPeak
  {
    var m := MaxOf(Acoustics(data));
    forall j | 0 <= j < |data|
      ensures Round(data[j].acousticSignal, 2) <= Round(m, 2)
    {
      assert Acoustics(data)[j] == data[j].acousticSignal;
      RoundMonotone(data[j].acousticSignal, m, 2);
    }
  }

  /** The average pressure and average flow lie between the (rounded) least and
      greatest value of the window. */
  lemma AveragesWithinRange(data: seq<SensorData>, root: Root)
    requires |data| > 0
    ensures ExtractFromWindow(data, root).Success?
    ensures Round(MinOf(Pressures(data)), 3) <= ExtractFromWindow(data, root).value.avgPressure
                                             <= Round(MaxOf(Pressures(data)), 3)
    ensures Round(MinOf(Flows(data)), 2) <= ExtractFromWindow(data, root).value.avgFlow
                                         <= Round(MaxOf(Flows(data)), 2)
  {
    var ps, fs := Pressures(data), Flows(data);
    MeanWithinRange(ps);
    MeanWithinRange(fs);
    RoundMonotone(MinOf(ps), Mean(ps), 3);
    RoundMonotone(Mean(ps), MaxOf(ps), 3);
    RoundMonotone(MinOf(fs), Mean(fs), 2);
    RoundMonotone(Mean(fs), MaxOf(fs), 2);
  }

  /** A window whose flows are all equal has zero flow deviation. */
  lemma FlatFlowWindow(data: seq<SensorData>, root: Root)
    requires |data| > 0
    requires forall i :: 0 <= i < |data| ==> data[i].flowRate == data[0].flowRate
    ensures ExtractFromWindow(data, root).Success?
    ensures ExtractFromWindow(data, root).value.flowStdDev == 0.0
  {
    RoundZero(3);
    if |data| > 1 {
      var fs := Flows(data);
      VarianceZeroIffConstant(fs);
      assert root(SampleVariance(fs)) == 0.0;
      assert ExtractFromWindow(data, root).value.flowStdDev == Round(root(SampleVariance(fs)), 3);
    }
  }

  /** A window whose pressure ends where it started has zero slope. */
  lemma LevelPressureWindow(data: seq<SensorData>, root: Root)
    requires |data| > 0
    requires data[0].pressure == data[|data| - 1].pressure
    ensures ExtractFromWindow(data, root).Success?
    ensures ExtractFromWindow(data, root).value.pressureDropRate == 0.0
  {
    RoundZero(4);
    if |data| > 1 {
      DropRateOfWindow(data, root);
    }
  }

  /** A window of identical readings summarises to those readings' values. */
  lemma ConstantWindow(data: seq<SensorData>, root: Root, p: real, f: real, a: real)
    requires |data| > 0
    requires forall i :: 0 <= i < |data| ==>
      data[i].pressure == p && data[i].flowRate == f && data[i].acousticSignal == a
    ensures ExtractFromWindow(data, root).Success?
    ensures ExtractFromWindow(data, root).value.avgPressure == Round(p, 3)
    ensures ExtractFromWindow(data, root).value.avgFlow == Round(f, 2)
    ensures ExtractFromWindow(data, root).value.pressureDropRate == 0.0
    ensures ExtractFromWindow(data, root).value.flowStdDev == 0.0
    ensures ExtractFromWindow(data, root).value.acousticPeak == Round(a, 2)
  {
    MeanBetween(Pressures(data), p, p);
    MeanBetween(Flows(data), f, f);
    FlatFlowWindow(data, root);
    LevelPressureWindow(data, root);
  }
}
