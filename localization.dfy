/** The leak localizer (app/localization/service.py): a fixed four-pipe
    network with per-segment pressure-drop thresholds, a single pass that keeps
    the segment whose drop most exceeds its threshold, and the network's
    GeoJSON view. */
module Localization {
  import opened Wrappers
  import opened Numerics

  type Node = string

  /** An ordered pair of nodes, as reported in `suspected_segment`. */
  type Segment = (Node, Node)

  /** A pipe of the graph, with its `length` edge attribute. */
  datatype Pipe = Pipe(u: Node, v: Node, length: nat)

  type Thresholds = map<Segment, real>

  /** Latitude/longitude as stored for each node. */
  datatype LatLng = LatLng(lat: real, lon: real)

  /** The analysis text: the drop it reports and the two nodes it names, or
      the message that all gradients look normal. */
  datatype Analysis = PressureDropDetected(drop: real, from: Node, to: Node) | GradientsNormal

  datatype LocalizationResult = LocalizationResult(
    suspectedSegment: Option<Segment>,
    confidence: real,
    analysis: Analysis)

  /** The threshold used for a pair absent from the table. */
  const DefaultThreshold: real := 0.5

  /** The graph's edges in the order the graph reports them. */
  const NetworkPipes: seq<Pipe> :=
    [Pipe("Tank", "A", 100), Pipe("A", "B", 50), Pipe("A", "C", 80), Pipe("C", "D", 40)]

  const DropThresholds: Thresholds :=
    map[("Tank", "A") := 0.5, ("A", "B") := 0.3, ("A", "C") := 0.3, ("C", "D") := 0.2]

  /** The sensor nodes in the insertion order of the coordinate table. */
  const SensorNodes: seq<Node> := ["Tank", "A", "B", "C", "D"]

  const NodeCoords: map<Node, LatLng> :=
    map[
      "Tank" := LatLng(18.5204, 73.8567),
      "A" := LatLng(18.5225, 73.8585),
      "B" := LatLng(18.5240, 73.8560),
      "C" := LatLng(18.5210, 73.8610),
      "D" := LatLng(18.5195, 73.8635)]

  // ---------------------------------------------------------------------------
  // Threshold lookup and per-pipe deviation

  /** The lookup `get((u, v)) or get((v, u), 0.5)`: the forward entry unless
      it is missing or 0.0 (which the `or` treats as false), then the reverse
      entry, then the default. */
  function Threshold(t: Thresholds, u: Node, v: Node): (th: real)
    ensures th == DefaultThreshold || th in t.Values
    ensures (u, v) in t && t[(u, v)] != 0.0 ==> th == t[(u, v)]
    ensures ((u, v) !in t || t[(u, v)] == 0.0) && (v, u) in t ==> th == t[(v, u)]
    ensures ((u, v) !in t || t[(u, v)] == 0.0) && (v, u) !in t ==> th == DefaultThreshold
  {
    if (u, v) in t && t[(u, v)] != 0.0 then t[(u, v)]
    else if (v, u) in t then t[(v, u)]
    else DefaultThreshold
  }

  /** A pipe takes part only when both its endpoints have a pressure. */
  predicate Evaluated(p: Pipe, pressures: map<Node, real>)
  {
    p.u in pressures && p.v in pressures
  }

  /** Measured drop along the pipe minus the pipe's threshold. */
  function Deviation(p: Pipe, t: Thresholds, pressures: map<Node, real>): real
    requires Evaluated(p, pressures)
  {
    pressures[p.u] - pressures[p.v] - Threshold(t, p.u, p.v)
  }

  // ---------------------------------------------------------------------------
  // The single pass, as a fold over the pipes

  /** The loop's variables: the running maximum deviation (starting at 0),
      the pipe that set it, and the threshold of the last evaluated pipe
      (unset until a pipe is evaluated). */
  datatype ScanState = ScanState(maxDeviation: real, suspected: Option<Segment>, threshold: Option<real>)

  function Step(s: ScanState, p: Pipe, t: Thresholds, pressures: map<Node, real>): ScanState
  {
    if !Evaluated(p, pressures) then s
    else
      var th := Threshold(t, p.u, p.v);
      var deviation := pressures[p.u] - pressures[p.v] - th;
      if deviation > s.maxDeviation then ScanState(deviation, Some((p.u, p.v)), Some(th))
      else s.(threshold := Some(th))
  }

  /** The loop's state after visiting `pipes` in order. */
  function Scan(pipes: seq<Pipe>, t: Thresholds, pressures: map<Node, real>): (s: ScanState)
    ensures s.maxDeviation >= 0.0
    ensures s.suspected.None? ==> s.maxDeviation == 0.0
    ensures s.suspected.Some? ==> s.maxDeviation > 0.0 && s.threshold.Some?
  {
    if |pipes| == 0 then ScanState(0.0, None, None)
    else Step(Scan(pipes[..|pipes| - 1], t, pressures), pipes[|pipes| - 1], t, pressures)
  }

  /** The confidence for a positive deviation: min(0.95, 0.5 + dev / 2),
      rounded to two decimals. */
  function Confidence(maxDeviation: real): real
  {
    Round(Min(0.95, 0.5 + maxDeviation / 2.0), 2)
  }

  /** The result built from the loop's final state. */
  function Conclude(s: ScanState): LocalizationResult
    requires s.suspected.Some? ==> s.threshold.Some?
  {
    match s.suspected
    case None => LocalizationResult(None, 0.0, GradientsNormal)
    case Some(seg) =>
      LocalizationResult(Some(seg), Confidence(s.maxDeviation),
        PressureDropDetected(Round(s.maxDeviation + s.threshold.value, 2), seg.0, seg.1))
  }

  /** `localize_leak` on a given graph and threshold table. With no suspect
      the confidence is 0.0 and the analysis says gradients are normal; with
      one, the confidence lies in [0.5, 0.95] and the analysis names the
      suspected segment's two nodes. */
  function Localize(pipes: seq<Pipe>, t: Thresholds, pressures: map<Node, real>): (r: LocalizationResult)
    ensures r.suspectedSegment.None? ==> r.confidence == 0.0 && r.analysis == GradientsNormal
    ensures r.suspectedSegment.Some? ==>
      && 0.5 <= r.confidence <= 0.95
      && r.analysis.PressureDropDetected?
      && r.analysis.from == r.suspectedSegment.value.0
      && r.analysis.to == r.suspectedSegment.value.1
  {
    var s := Scan(pipes, t, pressures);
    if s.suspected.Some? then ConfidenceRange(s.maxDeviation); Conclude(s)
    else Conclude(s)
  }

  // ---------------------------------------------------------------------------
  // What the pass computes

  /** A positive deviation gives a confidence in (0.5, 0.95] before rounding
      and in [0.5, 0.95] after it. */
  lemma ConfidenceRange(maxDeviation: real)
    requires maxDeviation > 0.0
    ensures 0.5 < Min(0.95, 0.5 + maxDeviation / 2.0) <= 0.95
    ensures 0.5 <= Confidence(maxDeviation) <= 0.95
  {
    RoundBetween(Min(0.95, 0.5 + maxDeviation / 2.0), 50, 95, 2);
  }

  /** Rounding can bring a suspect's confidence down to exactly 0.5. */
  lemma ConfidenceCanRoundToHalf()
    ensures Confidence(0.001) == 0.5
  {
    assert Min(0.95, 0.5 + 0.001 / 2.0) == 0.5005;
    assert 0.5005 * Pow10(2) == 50.05;
    assert (50.05).Floor == 50;
  }

  /** Pipe `k` is where the first maximum of the positive deviations occurs. */
  ghost predicate IsFirstArgmax(pipes: seq<Pipe>, t: Thresholds, pressures: map<Node, real>, k: int)
  {
    && 0 <= k < |pipes|
    && Evaluated(pipes[k], pressures)
    && Deviation(pipes[k], t, pressures) > 0.0
    && (forall j :: 0 <= j < |pipes| && Evaluated(pipes[j], pressures) ==>
          Deviation(pipes[j], t, pressures) <= Deviation(pipes[k], t, pressures))
    && (forall j :: 0 <= j < k && Evaluated(pipes[j], pressures) ==>
          Deviation(pipes[j], t, pressures) < Deviation(pipes[k], t, pressures))
  }

  /** The pass computes an argmax: no pipe is suspected exactly when no
      evaluated pipe's deviation is positive; otherwise the suspect is an
      evaluated pipe with the greatest deviation, the first such in order
      (ties go to the earlier pipe), and the running maximum is its deviation. */
  lemma {:induction false} ScanIsFirstArgmax(pipes: seq<Pipe>, t: Thresholds, pressures: map<Node, real>)
    ensures forall j :: 0 <= j < |pipes| && Evaluated(pipes[j], pressures) ==>
              Deviation(pipes[j], t, pressures) <= Scan(pipes, t, pressures).maxDeviation
    ensures Scan(pipes, t, pressures).suspected.None? <==>
              forall j :: 0 <= j < |pipes| && Evaluated(pipes[j], pressures) ==>
                Deviation(pipes[j], t, pressures) <= 0.0
    ensures Scan(pipes, t, pressures).suspected.Some? ==>
              exists k :: IsFirstArgmax(pipes, t, pressures, k)
                && Scan(pipes, t, pressures).suspected == Some((pipes[k].u, pipes[k].v))
                && Scan(pipes, t, pressures).maxDeviation == Deviation(pipes[k], t, pressures)
  {
    if |pipes| > 0 {
      var n := |pipes| - 1;
      var init, last := pipes[..n], pipes[n];
      ScanIsFirstArgmax(init, t, pressures);
      assert forall j :: 0 <= j < n ==> init[j] == pipes[j];
      var prev := Scan(init, t, pressures);
      var s := Scan(pipes, t, pressures);
      assert s == Step(prev, last, t, pressures);
      if Evaluated(last, pressures) && Deviation(last, t, pressures) > prev.maxDeviation {
        assert IsFirstArgmax(pipes, t, pressures, n);
      } else if s.suspected.Some? {
        var k :| IsFirstArgmax(init, t, pressures, k)
          && prev.suspected == Some((init[k].u, init[k].v))
          && prev.maxDeviation == Deviation(init[k], t, pressures);
        assert IsFirstArgmax(pipes, t, pressures, k);
      }
    }
  }

  /** The last evaluated pipe is `pipes[k]`. */
  ghost predicate IsLastEvaluated(pipes: seq<Pipe>, pressures: map<Node, real>, k: int)
  {
    && 0 <= k < |pipes|
    && Evaluated(pipes[k], pressures)
    && forall j :: k < j < |pipes| ==> !Evaluated(pipes[j], pressures)
  }

  /** The loop's `threshold` variable ends as the threshold of the last
      evaluated pipe, which need not be the suspected one. */
  lemma {:induction false} ScanThresholdIsLastEvaluated(pipes: seq<Pipe>, t: Thresholds, pressures: map<Node, real>)
    ensures Scan(pipes, t, pressures).threshold.None? <==>
              forall j :: 0 <= j < |pipes| ==> !Evaluated(pipes[j], pressures)
    ensures Scan(pipes, t, pressures).threshold.Some? ==>
              exists k :: IsLastEvaluated(pipes, pressures, k)
                && Scan(pipes, t, pressures).threshold == Some(Threshold(t, pipes[k].u, pipes[k].v))
  {
    if |pipes| > 0 {
      var n := |pipes| - 1;
      var init, last := pipes[..n], pipes[n];
      ScanThresholdIsLastEvaluated(init, t, pressures);
      assert forall j :: 0 <= j < n ==> init[j] == pipes[j];
      var s := Scan(pipes, t, pressures);
      if Evaluated(last, pressures) {
        assert IsLastEvaluated(pipes, pressures, n);
      } else if s.threshold.Some? {
        var k :| IsLastEvaluated(init, pressures, k)
          && Scan(init, t, pressures).threshold == Some(Threshold(t, init[k].u, init[k].v));
        assert IsLastEvaluated(pipes, pressures, k);
      }
    }
  }

  /** Every suspected segment is a pipe of the graph with both pressures
      supplied, and it has the greatest deviation, the first in order. */
  lemma SuspectIsEvaluatedPipe(pipes: seq<Pipe>, t: Thresholds, pressures: map<Node, real>)
    ensures Localize(pipes, t, pressures).suspectedSegment.None? <==>
              forall j :: 0 <= j < |pipes| && Evaluated(pipes[j], pressures) ==>
                Deviation(pipes[j], t, pressures) <= 0.0
    ensures Localize(pipes, t, pressures).suspectedSegment.Some? ==>
              exists k :: IsFirstArgmax(pipes, t, pressures, k) &&
                Localize(pipes, t, pressures).suspectedSegment == Some((pipes[k].u, pipes[k].v))
  {
    ScanIsFirstArgmax(pipes, t, pressures);
  }

  /** At most one pipe is the first argmax. */
  lemma FirstArgmaxUnique(pipes: seq<Pipe>, t: Thresholds, pressures: map<Node, real>, k: int, k': int)
    requires IsFirstArgmax(pipes, t, pressures, k) && IsFirstArgmax(pipes, t, pressures, k')
    ensures k == k'
  {
  }

  /** At most one pipe is the last evaluated one. */
  lemma LastEvaluatedUnique(pipes: seq<Pipe>, pressures: map<Node, real>, l: int, l': int)
    requires IsLastEvaluated(pipes, pressures, l) && IsLastEvaluated(pipes, pressures, l')
    ensures l == l'
  {
  }

  /** The whole result when pipe `k` is the first argmax and pipe `l` the
      last evaluated one: the suspect is pipe k, the confidence comes from
      k's deviation, and the analysis reports k's deviation plus the
      threshold of pipe l (which is k's own threshold only when k == l). */
  lemma LocalizeReportsArgmax(pipes: seq<Pipe>, t: Thresholds, pressures: map<Node, real>, k: int, l: int)
    requires IsFirstArgmax(pipes, t, pressures, k) && IsLastEvaluated(pipes, pressures, l)
    ensures Localize(pipes, t, pressures) == LocalizationResult(
              Some((pipes[k].u, pipes[k].v)),
              Confidence(Deviation(pipes[k], t, pressures)),
              PressureDropDetected(
                Round(Deviation(pipes[k], t, pressures) + Threshold(t, pipes[l].u, pipes[l].v), 2),
                pipes[k].u, pipes[k].v))
  {
    ScanIsFirstArgmax(pipes, t, pressures);
    ScanThresholdIsLastEvaluated(pipes, t, pressures);
    var s := Scan(pipes, t, pressures);
    assert s.suspected.Some?;
    var k' :| IsFirstArgmax(pipes, t, pressures, k')
      && s.suspected == Some((pipes[k'].u, pipes[k'].v))
      && s.maxDeviation == Deviation(pipes[k'], t, pressures);
    FirstArgmaxUnique(pipes, t, pressures, k, k');
    var l' :| IsLastEvaluated(pipes, pressures, l')
      && s.threshold == Some(Threshold(t, pipes[l'].u, pipes[l'].v));
    LastEvaluatedUnique(pipes, pressures, l, l');
  }

  // ---------------------------------------------------------------------------
  // The reported drop (see the Findings section of README.md)

  /** As written, the analysis reports max_deviation plus the LAST evaluated
      pipe's threshold. Here the suspect is Tank-A, whose measured drop is
      1.5 bar, but C-D is evaluated last and the text reports 1.0 + 0.2 = 1.2. */
  lemma ReportedDropUsesLastThreshold()
    ensures Localize(NetworkPipes, DropThresholds,
                     map["Tank" := 6.5, "A" := 5.0, "B" := 4.7, "C" := 4.7, "D" := 4.5])
         == LocalizationResult(Some(("Tank", "A")), 0.95, PressureDropDetected(1.2, "Tank", "A"))
  {
    var p := map["Tank" := 6.5, "A" := 5.0, "B" := 4.7, "C" := 4.7, "D" := 4.5];
    var t := DropThresholds;
    assert NetworkPipes[..1] == [Pipe("Tank", "A", 100)];
    assert NetworkPipes[..2] == NetworkPipes[..1] + [Pipe("A", "B", 50)];
    assert NetworkPipes[..3] == NetworkPipes[..2] + [Pipe("A", "C", 80)];
    assert NetworkPipes == NetworkPipes[..3] + [Pipe("C", "D", 40)];
    assert Threshold(t, "Tank", "A") == 0.5;
    assert Threshold(t, "A", "B") == 0.3;
    assert Threshold(t, "A", "C") == 0.3;
    assert Threshold(t, "C", "D") == 0.2;
    assert Scan(NetworkPipes[..1], t, p) == ScanState(1.0, Some(("Tank", "A")), Some(0.5));
    assert Scan(NetworkPipes[..2], t, p) == ScanState(1.0, Some(("Tank", "A")), Some(0.3));
    assert Scan(NetworkPipes[..3], t, p) == ScanState(1.0, Some(("Tank", "A")), Some(0.3));
    assert Scan(NetworkPipes, t, p) == ScanState(1.0, Some(("Tank", "A")), Some(0.2));
    RoundOnGrid(95, 2);
    RoundOnGrid(120, 2);
  }

  /** The localization the text evidently intends: the same suspect and
      confidence, with the drop computed from the suspected pipe's own
      threshold. */
  function LocalizeCorrected(pipes: seq<Pipe>, t: Thresholds, pressures: map<Node, real>): LocalizationResult
  {
    var s := Scan(pipes, t, pressures);
    match s.suspected
    case None => LocalizationResult(None, 0.0, GradientsNormal)
    case Some(seg) =>
      LocalizationResult(Some(seg), Confidence(s.maxDeviation),
        PressureDropDetected(Round(s.maxDeviation + Threshold(t, seg.0, seg.1), 2), seg.0, seg.1))
  }

  /** The corrected text reports the suspected segment's own measured drop,
      and agrees with the original on the suspect and the confidence. */
  lemma CorrectedReportsSuspectedDrop(pipes: seq<Pipe>, t: Thresholds, pressures: map<Node, real>)
    ensures LocalizeCorrected(pipes, t, pressures).suspectedSegment
         == Localize(pipes, t, pressures).suspectedSegment
    ensures LocalizeCorrected(pipes, t, pressures).confidence
         == Localize(pipes, t, pressures).confidence
    ensures match LocalizeCorrected(pipes, t, pressures).suspectedSegment
            case None => true
            case Some(seg) =>
              && seg.0 in pressures && seg.1 in pressures
              && LocalizeCorrected(pipes, t, pressures).analysis
                 == PressureDropDetected(Round(pressures[seg.0] - pressures[seg.1], 2), seg.0, seg.1)
  {
    ScanIsFirstArgmax(pipes, t, pressures);
  }

  // ---------------------------------------------------------------------------
  // The network object

  /** A GeoJSON position: the list [longitude, latitude]. */
  type Position = seq<real>

  /** The stored (latitude, longitude) pair, emitted longitude first. */
  function ToPosition(c: LatLng): Position
  {
    [c.lon, c.lat]
  }

  datatype Geometry = Point(coordinates: Position) | LineString(path: seq<Position>)

  datatype Properties = SensorProperties(id: Node) | SegmentProperties(segment: string)

  datatype GeoFeature = GeoFeature(geometry: Geometry, properties: Properties)

  datatype FeatureCollection = FeatureCollection(features: seq<GeoFeature>)

  function SensorFeature(n: Node, c: LatLng): GeoFeature
  {
    GeoFeature(Point(ToPosition(c)), SensorProperties(n))
  }

  function SegmentFeature(p: Pipe, coords: map<Node, LatLng>): GeoFeature
    requires p.u in coords && p.v in coords
  {
    GeoFeature(LineString([ToPosition(coords[p.u]), ToPosition(coords[p.v])]),
               SegmentProperties(p.u + "-" + p.v))
  }

  class WaterNetworkModel {
    const edges: seq<Pipe>
    const dropThresholds: Thresholds
    const nodes: seq<Node>
    const nodeCoords: map<Node, LatLng>

    /** Every pipe endpoint has coordinates, and `nodes` lists the coordinate
        table's keys once each. */
    ghost predicate Valid()
    {
      && (forall i :: 0 <= i < |edges| ==> edges[i].u in nodeCoords && edges[i].v in nodeCoords)
      && (forall i :: 0 <= i < |nodes| ==> nodes[i] in nodeCoords)
      && (forall i, j :: 0 <= i < j < |nodes| ==> nodes[i] != nodes[j])
      && |nodes| == |nodeCoords.Keys|
    }

    /** The fixed network: Tank-A, A-B, A-C, C-D with their lengths,
        thresholds and coordinates. */
    constructor ()
      ensures Valid()
      ensures edges == NetworkPipes && dropThresholds == DropThresholds
      ensures nodes == SensorNodes && nodeCoords == NodeCoords
    {
      edges := NetworkPipes;
      dropThresholds := DropThresholds;
      nodes := SensorNodes;
      nodeCoords := NodeCoords;
      new;
      assert NodeCoords.Keys == {"Tank", "A", "B", "C", "D"};
    }

    /** `localize_leak`: one pass over the edges keeping the running maximum
        deviation, then the result built from it. */
    method LocalizeLeak(pressures: map<Node, real>) returns (r: LocalizationResult)
      ensures r == Localize(edges, dropThresholds, pressures)
    {
      var maxDeviation := 0.0;
      var suspectedEdge: Option<Segment> := None;
      var threshold: Option<real> := None;
      for i := 0 to |edges|
        invariant ScanState(maxDeviation, suspectedEdge, threshold) == Scan(edges[..i], dropThresholds, pressures)
      {
        var e := edges[i];
        assert edges[..i + 1] == edges[..i] + [e];
        if e.u in pressures && e.v in pressures {
          var actualDrop := pressures[e.u] - pressures[e.v];
          threshold := Some(Threshold(dropThresholds, e.u, e.v));
          var deviation := actualDrop - threshold.value;
          if deviation > maxDeviation {
            maxDeviation := deviation;
            suspectedEdge := Some((e.u, e.v));
          }
        }
      }
      assert edges[..|edges|] == edges;
      if suspectedEdge.Some? {
        var confidence := Min(0.95, 0.5 + maxDeviation / 2.0);
        r := LocalizationResult(suspectedEdge, Round(confidence, 2),
          PressureDropDetected(Round(maxDeviation + threshold.value, 2), suspectedEdge.value.0, suspectedEdge.value.1));
      } else {
        r := LocalizationResult(None, 0.0, GradientsNormal);
      }
    }

    /** `get_geo_json`: one Point per node in table order, then one LineString
        per edge labelled "u-v"; every position is longitude first. */
    method GetGeoJson() returns (fc: FeatureCollection)
      requires Valid()
      ensures |fc.features| == |nodes| + |edges|
      ensures forall i :: 0 <= i < |nodes| ==>
                fc.features[i] == SensorFeature(nodes[i], nodeCoords[nodes[i]])
      ensures forall j :: 0 <= j < |edges| ==>
                fc.features[|nodes| + j] == SegmentFeature(edges[j], nodeCoords)
    {
      var features: seq<GeoFeature> := [];
      for i := 0 to |nodes|
        invariant |features| == i
        invariant forall k :: 0 <= k < i ==> features[k] == SensorFeature(nodes[k], nodeCoords[nodes[k]])
      {
        features := features + [SensorFeature(nodes[i], nodeCoords[nodes[i]])];
      }
      for j := 0 to |edges|
        invariant |features| == |nodes| + j
        invariant forall k :: 0 <= k < |nodes| ==> features[k] == SensorFeature(nodes[k], nodeCoords[nodes[k]])
        invariant forall k :: 0 <= k < j ==> features[|nodes| + k] == SegmentFeature(edges[k], nodeCoords)
      {
        features := features + [SegmentFeature(edges[j], nodeCoords)];
      }
      fc := FeatureCollection(features);
    }
  }

  // ---------------------------------------------------------------------------
  // Properties of the fixed network

  /** Positions come out longitude first: the Tank, stored at latitude
      18.5204 and longitude 73.8567, is emitted at [73.8567, 18.5204], and
      the Tank-A line runs from there to A's [73.8585, 18.5225]. */
  lemma GeoJsonIsLongitudeFirst()
    ensures SensorFeature("Tank", NodeCoords["Tank"])
         == GeoFeature(Point([73.8567, 18.5204]), SensorProperties("Tank"))
    ensures SegmentFeature(NetworkPipes[0], NodeCoords)
         == GeoFeature(LineString([[73.8567, 18.5204], [73.8585, 18.5225]]), SegmentProperties("Tank-A"))
  {
    assert NetworkPipes[0].u + "-" + NetworkPipes[0].v == "Tank-A";
  }

  /** In the fixed table every pipe's threshold is found in either
      orientation, and it is the stored value. */
  lemma NetworkThresholdsAreSymmetric()
    ensures forall i :: 0 <= i < |NetworkPipes| ==>
      var p := NetworkPipes[i];
      (p.u, p.v) in DropThresholds
      && Threshold(DropThresholds, p.u, p.v) == DropThresholds[(p.u, p.v)]
      && Threshold(DropThresholds, p.v, p.u) == DropThresholds[(p.u, p.v)]
  {
  }

  /** Because of the `or`, a stored 0.0 falls through: to the default when
      the reverse pair is absent, to the reverse entry when present. */
  lemma ZeroThresholdFallsThrough()
    ensures Threshold(map[("A", "B") := 0.0], "A", "B") == DefaultThreshold
    ensures Threshold(map[("A", "B") := 0.0, ("B", "A") := 0.0], "A", "B") == 0.0
    ensures Threshold(map[("A", "B") := 0.0, ("B", "A") := 0.7], "A", "B") == 0.7
  {
  }

  /** The collector's offsets (Tank p+0.5, A p, B and C p-0.4, D p-0.7) give
      deviations 0, 0.1, 0.1, 0.1; the tie goes to A-B, the first of the
      three, with confidence 0.55. */
  lemma CollectorOffsetsSuspectAB(p: real)
    ensures Localize(NetworkPipes, DropThresholds,
                     map["Tank" := p + 0.5, "A" := p, "B" := p - 0.4, "C" := p - 0.4, "D" := p - 0.7])
         == LocalizationResult(Some(("A", "B")), 0.55, PressureDropDetected(0.3, "A", "B"))
  {
    var ps := map["Tank" := p + 0.5, "A" := p, "B" := p - 0.4, "C" := p - 0.4, "D" := p - 0.7];
    var t := DropThresholds;
    assert NetworkPipes[..1] == [Pipe("Tank", "A", 100)];
    assert NetworkPipes[..2] == NetworkPipes[..1] + [Pipe("A", "B", 50)];
    assert NetworkPipes[..3] == NetworkPipes[..2] + [Pipe("A", "C", 80)];
    assert NetworkPipes == NetworkPipes[..3] + [Pipe("C", "D", 40)];
    assert Threshold(t, "Tank", "A") == 0.5;
    assert Threshold(t, "A", "B") == 0.3;
    assert Threshold(t, "A", "C") == 0.3;
    assert Threshold(t, "C", "D") == 0.2;
    assert Scan(NetworkPipes[..1], t, ps) == ScanState(0.0, None, Some(0.5));
    assert Scan(NetworkPipes[..2], t, ps) == ScanState(0.1, Some(("A", "B")), Some(0.3));
    assert Scan(NetworkPipes[..3], t, ps) == ScanState(0.1, Some(("A", "B")), Some(0.3));
    assert Scan(NetworkPipes, t, ps) == ScanState(0.1, Some(("A", "B")), Some(0.2));
    assert Min(0.95, 0.5 + 0.1 / 2.0) == 55 as real / Pow10(2);
    RoundOnGrid(55, 2);
    RoundOnGrid(30, 2);
  }

  /** Only Tank and A reported, with a 1.5 bar drop against the 0.5 threshold:
      Tank-A is suspected with confidence min(0.95, 0.5 + 1.0 / 2) = 0.95. */
  lemma TwoNodeBurst()
    ensures Localize(NetworkPipes, DropThresholds, map["Tank" := 5.5, "A" := 4.0])
         == LocalizationResult(Some(("Tank", "A")), 0.95, PressureDropDetected(1.5, "Tank", "A"))
  {
    var ps := map["Tank" := 5.5, "A" := 4.0];
    var t := DropThresholds;
    assert NetworkPipes[..1] == [Pipe("Tank", "A", 100)];
    assert NetworkPipes[..2] == NetworkPipes[..1] + [Pipe("A", "B", 50)];
    assert NetworkPipes[..3] == NetworkPipes[..2] + [Pipe("A", "C", 80)];
    assert NetworkPipes == NetworkPipes[..3] + [Pipe("C", "D", 40)];
    assert Threshold(t, "Tank", "A") == 0.5;
    assert Scan(NetworkPipes[..1], t, ps) == ScanState(1.0, Some(("Tank", "A")), Some(0.5));
    assert Scan(NetworkPipes, t, ps) == ScanState(1.0, Some(("Tank", "A")), Some(0.5));
    RoundOnGrid(95, 2);
    RoundOnGrid(150, 2);
  }
}
