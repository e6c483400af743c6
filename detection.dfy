/** The detection service (app/detection/service.py): a bounded FIFO of the
    latest readings, a minimum-data gate, and the combination of the anomaly
    detector's verdict with the severity score. */
module Detection {
  import opened Wrappers
  import opened Numerics
  import opened Readings
  import opened Features
  import opened Scoring
  import opened Anomaly

  /** The deque's default capacity (one reading per second for a minute). */
  const DefaultWindowSize: nat := 60

  /** Fewer buffered readings than this give no features and no detection. */
  const MinSamples: nat := 5

  datatype DetectionResult = DetectionResult(
    isLeak: bool,
    confidence: real,
    severityScore: real,
    severity: Severity,
    features: FeatureVector,
    timestamp: Timestamp)

  function MinNat(a: nat, b: nat): nat { if a <= b then a else b }

  /** The newest `capacity` elements of `s`, in arrival order. */
  function Window<T>(s: seq<T>, capacity: nat): (w: seq<T>)
    ensures |w| == MinNat(|s|, capacity)
    ensures forall i :: 0 <= i < |w| ==> w[i] == s[|s| - |w| + i]
  {
    s[|s| - MinNat(|s|, capacity)..]
  }

  /** Appending to a bounded deque: length min(old + 1, capacity); the new
      element is last; below capacity nothing is dropped; at capacity exactly
      the oldest element is dropped and the others keep their order. */
  lemma AppendToWindow<T>(buffer: seq<T>, x: T, capacity: nat)
    requires |buffer| <= capacity
    ensures |Window(buffer + [x], capacity)| == MinNat(|buffer| + 1, capacity)
    ensures capacity > 0 ==> Window(buffer + [x], capacity)[|Window(buffer + [x], capacity)| - 1] == x
    ensures |buffer| < capacity ==> Window(buffer + [x], capacity) == buffer + [x]
    ensures 0 < |buffer| == capacity ==> Window(buffer + [x], capacity) == buffer[1..] + [x]
  {
  }

  /** Feeding one more element to the window of a stream gives the window of
      the longer stream: the buffer always holds the stream's newest readings. */
  lemma WindowOfStream<T>(stream: seq<T>, x: T, capacity: nat)
    ensures Window(Window(stream, capacity) + [x], capacity) == Window(stream + [x], capacity)
  {
    var w := Window(stream, capacity);
    var lhs, rhs := Window(w + [x], capacity), Window(stream + [x], capacity);
    assert |lhs| == |rhs|;
    forall i | 0 <= i < |lhs|
      ensures lhs[i] == rhs[i]
    {
      if i < |lhs| - 1 {
        assert lhs[i] == (w + [x])[|w| + 1 - |lhs| + i];
      }
    }
  }

  class DetectionService {
    const windowSize: nat
    var buffer: seq<SensorData>
    var isMonitoring: bool

    ghost predicate Valid()
      reads this
    {
      |buffer| <= windowSize
    }

    constructor (windowSizeSeconds: nat := DefaultWindowSize)
      ensures Valid()
      ensures windowSize == windowSizeSeconds && buffer == [] && isMonitoring
    {
      windowSize := windowSizeSeconds;
      buffer := [];
      isMonitoring := true;
    }

    /** `add_reading`: append to the bounded deque, evicting the oldest
        reading when it is full. */
    method AddReading(reading: SensorData)
      requires Valid()
      modifies this`buffer
      ensures Valid()
      ensures buffer == Window(old(buffer) + [reading], windowSize)
    {
      if |buffer| < windowSize {
        buffer := buffer + [reading];
      } else if windowSize > 0 {
        buffer := buffer[1..] + [reading];
      }
    }

    /** `get_features`: nothing below the minimum sample count, otherwise the
        features of the whole buffer in arrival order. */
    function GetFeatures(root: Root): (r: Option<FeatureVector>)
      reads this
      ensures r.None? <==> |buffer| < MinSamples
      ensures r.Some? ==> ExtractFromWindow(buffer, root) == Success(r.value)
      ensures r.Some? ==> r.value.sampleCount == |buffer|
    {
      if |buffer| < MinSamples then None
      else Some(ExtractFromWindow(buffer, root).value)
    }

    /** `run_detection`: absent exactly when the features are; otherwise the
        leak flag and confidence are the detector's, and the severity is the
        scorer's whatever the flag says. `now` stands for the wall clock. */
    function RunDetection(detector: AnomalyDetector, root: Root, now: Timestamp): (r: Option<DetectionResult>)
      reads this, detector
      requires detector.Valid()
      ensures r.None? <==> GetFeatures(root).None?
      ensures r.Some? ==>
        && r.value.features == GetFeatures(root).value
        && (r.value.isLeak, r.value.confidence) == detector.Predict(r.value.features)
        && (r.value.severityScore, r.value.severity) == Calculate(r.value.features)
        && r.value.timestamp == now
      ensures r.Some? ==> 0.0 <= r.value.confidence <= 1.0 && r.value.severityScore <= 100.0
      ensures r.Some? && !detector.isTrained ==> !r.value.isLeak && r.value.confidence == 0.0
    {
      match GetFeatures(root)
      case None => None
      case Some(features) =>
        var (isAnomaly, confidence) := detector.Predict(features);
        var (severityScore, severityLabel) := Calculate(features);
        Some(DetectionResult(isAnomaly, confidence, severityScore, severityLabel, features, now))
    }
  }

  /** When every buffered acoustic signal is non-negative (as the simulator
      guarantees), a detection's severity score lies in [0, 100]. */
  lemma SeverityScoreInRange(svc: DetectionService, detector: AnomalyDetector, root: Root, now: Timestamp)
    requires detector.Valid()
    requires forall i :: 0 <= i < |svc.buffer| ==> svc.buffer[i].acousticSignal >= 0.0
    ensures svc.RunDetection(detector, root, now).Some? ==>
              0.0 <= svc.RunDetection(detector, root, now).value.severityScore <= 100.0
  {
    if svc.RunDetection(detector, root, now).Some? {
      var data := svc.buffer;
      var f := ExtractFromWindow(data, root).value;
      VarianceZeroIffConstant(Flows(data));
      RoundNonNegative(root(SampleVariance(Flows(data))), 3);
      assert f.flowStdDev >= 0.0;
      var m := MaxOf(Acoustics(data));
      RoundNonNegative(m, 2);
      assert f.acousticPeak >= 0.0;
    }
  }
}
