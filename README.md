# Water leak detection: a verified model of the detection and localization core

This project models the core of a water-distribution monitoring service. The
service has these parts:

- A **sensor simulator** emits one reading per tick: pressure in bar, flow in
  L/min and an acoustic amplitude. Each reading's shape depends on the operating
  mode (normal, small leak, major burst, intermittent leak, valve fault) and on a
  tick counter that restarts at every mode change.
- A **detection service** keeps the newest readings in a bounded FIFO of 60
  readings. With at least 5 readings it extracts features: means, a
  pressure slope, the flow's sample standard deviation, the acoustic peak and the
  sample count.
- An **anomaly detector** is an isolation forest behind a trained/untrained
  gate. It reports whether the features look anomalous and a score
  normalized into [0, 1].
- A **severity scorer** combines a pressure-drop term, a flow-deviation term and
  an acoustic term into a score of at most 100. It then sorts the score into
  Minor, Moderate or Critical.
- A **leak localizer** works on a fixed four-pipe network (Tank-A, A-B, A-C,
  C-D). It flags the pipe whose pressure drop most exceeds its threshold and
  attaches a confidence. It also exposes the network as GeoJSON.
- **Analytics** estimates water loss and its cost from stored readings. It also
  scores each segment's risk from its alert count.

Everything is modelled over exact reals. Python's `round(x, d)` is
`Numerics.Round`: round half to even, applied to the exact value. The square
root inside `statistics.stdev` is a parameter (`Features.Root`). The isolation
forest is a pair of function values (`Anomaly.Forest`). The random draws, sine
and cosine, and the clock are parameters as well.

The modules follow the program's structure:

- `numerics.dfy` holds the `Wrappers` module (`Option` and `Result`) and the `Numerics` module (rounding and min/max).
- `readings.dfy` holds the sensor record.
- `features.dfy` models the feature extractor.
- `scoring.dfy` models the severity scorer.
- `anomaly.dfy` models the anomaly detector.
- `detection.dfy` models the detection service.
- `localization.dfy` models the leak localizer.
- `simulation.dfy` models the simulator.
- `analytics.dfy` models the analytics arithmetic.

Mutable objects are classes:

- `DetectionService` owns its buffer.
- `AnomalyDetector` owns its model and trained flag.
- `WaterSensorSimulator` owns its mode and tick counter.
- `WaterNetworkModel` has constant fields fixed by its constructor.

Each loop of the source is a `method` proved against a function that specifies
it. Those loops are the localizer's pass over the edges, the GeoJSON builder,
the data-frame builder, the loss accumulation and the risk map.

Three behaviours of the code are worth knowing in advance. Each is proved over
exact reals:

- For the pressures Tank 5.5, A 5.0, B 4.6, C 4.6, D 4.3 the localizer computes
  the deviations 0, 0.1, 0.1, 0.1 and suspects A-B.
  `Localization.CollectorOffsetsSuspectAB` proves this over exact reals for every
  base pressure p. In binary doubles the three deviations of 0.1 are not computed
  identically, so the tie is not exact. At p = 5.0 the A-B deviation is still the
  largest, but at some other base pressures (4.0, for one) the C-D deviation
  comes out largest and C-D is suspected instead.
- A window at baseline pressure, with steady flow and acoustic 10, scores 3.33
  rather than 0. The acoustic term causes this (`Scoring.QuietWindowScore`).
- The scorer floors only the pressure term at 0. It caps only the flow and
  acoustic terms at 100 (`Scoring.OneSidedClamps`).

## Model

| member | source | states |
|---|---|---|
| Readings.ModeNameInjective | app/simulation/models.py:6-11 | distinct modes are stored as distinct strings, so a filter on the stored mode text selects exactly one mode |
| Features.MaxOf | app/detection/features.py:28 | the peak is one of the values and no value exceeds it |
| Features.ExtractFromWindow | app/detection/features.py:8-39 | extraction fails exactly on an empty window; on success the sample count is N and the window runs from the first reading's timestamp to the last's |
| Features.AveragesWithinRange | app/detection/features.py:16-17 | the rounded average pressure and average flow lie between the rounded minimum and maximum of the window |
| Features.MeanWithinRange | app/detection/features.py:16-17 | a mean lies between the least and the greatest value |
| Features.VarianceZeroIffConstant | app/detection/features.py:23 | the sample variance is non-negative, and zero exactly when all values are equal |
| Features.SingleReadingWindow | app/detection/features.py:21-26 | a one-reading window has drop rate 0 and flow deviation 0 |
| Features.SlopeSign | app/detection/features.py:22 | first minus last over N is positive exactly when the values fell and negative exactly when they rose (non-negative and non-positive in the weak cases) |
| Features.DropRateOfWindow | app/detection/features.py:21-22 | for N > 1 the drop rate is (first - last) / N rounded to 4 places; it is non-negative when pressure fell or stayed level and non-positive when it rose (rounding can bring a small slope to 0) |
| Features.AcousticPeakIsMaximum | app/detection/features.py:28 | the acoustic peak equals one rounded reading and is at least every rounded reading |
| Features.FlatFlowWindow | app/detection/features.py:23 | a window whose flows are all equal has flow deviation 0 |
| Features.LevelPressureWindow | app/detection/features.py:22 | a window whose first and last pressures are equal has drop rate 0 |
| Features.ConstantWindow | app/detection/features.py:12-38 | a constant window gives its own rounded pressure, flow and peak, zero drop rate and zero deviation |
| Scoring.PressureDropPct | app/detection/scoring.py:16 | the pressure term is never negative and is 0 at or above 5 bar |
| Scoring.FlowDeviationPct | app/detection/scoring.py:20 | the flow term is capped at 100 and is non-negative for a non-negative deviation |
| Scoring.AcousticIntensity | app/detection/scoring.py:24 | the acoustic term is capped at 100 and is non-negative for a non-negative peak |
| Scoring.Classify | app/detection/scoring.py:31-36 | Minor exactly below 30, Moderate exactly on [30, 60), Critical exactly from 60 |
| Scoring.Calculate | app/detection/scoring.py:10-38 | the score is at most 100, is at least 0 when the deviation and peak are not negative, and the category is that of the rounded score |
| Scoring.ScoreMonotoneInPressure | app/detection/scoring.py:16-28 | with all else fixed, a lower average pressure never gives a lower score |
| Scoring.ScoreSaturates | app/detection/scoring.py:28-36 | a weighted sum of 100 or more gives exactly (100, Critical) |
| Scoring.QuietWindowScore | app/detection/scoring.py:16-36 | pressure 5.0, deviation 0 and peak 10 give (3.33, Minor) |
| Scoring.OneSidedClamps | app/detection/scoring.py:16-24 | the pressure term can exceed 100 (200 at -5 bar), and the flow and acoustic terms can go negative (-10 at a flow deviation of -10 and at an acoustic peak of -6) |
| Anomaly.NormalizeScore | app/detection/anomaly_detector.py:41-43 | the score lies in [0, 1]; it is 0 for d >= 0, 5 times -d on (-0.2, 0), and 1 for d <= -0.2 |
| Anomaly.NormalizeScoreAntitone | app/detection/anomaly_detector.py:41-43 | a lower decision value never gives a lower score |
| Anomaly.Verdict | app/detection/anomaly_detector.py:34-43 | the flag is set exactly when the forest's label is -1, and the score is the normalized decision value |
| Anomaly.VerdictAndScoreAreIndependent | app/detection/anomaly_detector.py:35-38 | the label and the decision value are separate queries, so (true, 0.0) and (false, 1.0) both occur |
| Anomaly.AnomalyDetector.constructor | app/detection/anomaly_detector.py:9-11 | a new detector is untrained |
| Anomaly.AnomalyDetector.PrepareData | app/detection/anomaly_detector.py:45-56 | the loop builds exactly the frame `Samples` describes |
| Anomaly.AnomalyDetector.Train | app/detection/anomaly_detector.py:13-22 | an empty history changes nothing; a non-empty one refits on its rows and sets the trained flag; a trained detector stays trained |
| Anomaly.AnomalyDetector.Predict | app/detection/anomaly_detector.py:24-43 | an untrained detector answers (false, 0.0); a trained one gives the forest's verdict; the score is always in [0, 1] |
| Detection.Window | app/detection/service.py:13 | the buffer holds the newest min(N, capacity) elements in arrival order |
| Detection.AppendToWindow | app/detection/service.py:16-17 | after an append the length is min(old + 1, capacity) and the new reading is last; below capacity nothing is dropped; at capacity exactly the oldest is dropped |
| Detection.WindowOfStream | app/detection/service.py:13-17 | appending to the window of a stream gives the window of the longer stream |
| Detection.DetectionService.constructor | app/detection/service.py:11-14 | the buffer starts empty with the given capacity (60 by default) and monitoring on |
| Detection.DetectionService.AddReading | app/detection/service.py:16-17 | the new buffer is the window of the old buffer plus the reading, so it never exceeds the capacity |
| Detection.DetectionService.GetFeatures | app/detection/service.py:19-22 | absent exactly when fewer than 5 readings are buffered, otherwise the extraction over the whole buffer |
| Detection.DetectionService.RunDetection | app/detection/service.py:24-41 | absent exactly when the features are; the flag and confidence are the detector's and the score and category are the scorer's, whatever the flag |
| Detection.SeverityScoreInRange | app/detection/service.py:32 | with non-negative acoustic readings a detection's score lies in [0, 100] |
| Localization.Threshold | app/localization/service.py:56 | the forward entry unless it is missing or 0.0; in that case the reverse entry when there is one, else 0.5 |
| Localization.Scan | app/localization/service.py:45-61 | the running maximum starts at 0 and stays non-negative; it is positive exactly when a suspect is set, and then a threshold has been read |
| Localization.Localize | app/localization/service.py:39-76 | no suspect gives confidence 0.0 and the normal message; a suspect gives confidence in [0.5, 0.95] and names the suspect's two nodes |
| Localization.ConfidenceRange | app/localization/service.py:65-68 | a positive deviation gives a confidence in (0.5, 0.95] before rounding and [0.5, 0.95] after it |
| Localization.ConfidenceCanRoundToHalf | app/localization/service.py:68 | a deviation of 0.001 gives a rounded confidence of exactly 0.5 |
| Localization.ScanIsFirstArgmax | app/localization/service.py:45-61 | there is no suspect exactly when no evaluated pipe has a positive deviation; otherwise the suspect is an evaluated pipe of greatest deviation, the first such in edge order |
| Localization.ScanThresholdIsLastEvaluated | app/localization/service.py:48-58 | the threshold left after the loop is that of the last evaluated pipe, and there is none exactly when no pipe was evaluated |
| Localization.SuspectIsEvaluatedPipe | app/localization/service.py:48-61 | the suspected segment is a pipe of the graph with both pressures supplied and the greatest deviation |
| Localization.LocalizeReportsArgmax | app/localization/service.py:45-72 | with pipe k the first argmax and pipe l the last evaluated pipe, the result is exactly: suspect k, the confidence of k's deviation, and a drop of k's deviation plus l's threshold naming k's nodes |
| Localization.ReportedDropUsesLastThreshold | app/localization/service.py:69 | for Tank 6.5, A 5.0, B 4.7, C 4.7, D 4.5 the suspect is Tank-A with confidence 0.95, but the text reports a drop of 1.2 bar |
| Localization.CorrectedReportsSuspectedDrop | app/localization/service.py:69 | the corrected text reports the suspected segment's own measured drop, with the same suspect and confidence |
| Localization.WaterNetworkModel.constructor | app/localization/service.py:6-37 | the pipes Tank-A, A-B, A-C, C-D with their lengths, the four thresholds and the five nodes' coordinates |
| Localization.WaterNetworkModel.LocalizeLeak | app/localization/service.py:39-76 | the loop computes exactly `Localize` over the network's edges and thresholds |
| Localization.WaterNetworkModel.GetGeoJson | app/localization/service.py:78-106 | one Point per node in table order, then one LineString per edge labelled "u-v", every position longitude first; the constant `"type"` tags ("Feature", "Point", "LineString", "sensor", "FeatureCollection") are carried by the datatype constructors rather than stored as strings |
| Localization.GeoJsonIsLongitudeFirst | app/localization/service.py:86-100 | the Tank's point is [73.8567, 18.5204] and the Tank-A line runs to A's [73.8585, 18.5225], longitude before latitude |
| Localization.NetworkThresholdsAreSymmetric | app/localization/service.py:10-15 | every pipe of the network finds its stored threshold in either orientation |
| Localization.ZeroThresholdFallsThrough | app/localization/service.py:56 | a stored 0.0 falls through to the reverse entry or to the default 0.5 |
| Localization.CollectorOffsetsSuspectAB | app/main.py:78-84 | over exact reals, the collector's offsets from any base pressure give deviations 0, 0.1, 0.1, 0.1, so A-B is suspected with confidence 0.55 and a reported drop of 0.3 |
| Localization.TwoNodeBurst | app/localization/service.py:48-69 | with only Tank 5.5 and A 4.0 given, Tank-A is suspected with confidence 0.95 and a reported drop of 1.5 |
| Simulation.Uniform | app/simulation/service.py:27-29 | a uniform draw lies in [lo, hi); the product (hi - lo) * u sits in the helper `Scale`, whose lemma `ScaleBelow` bounds it, so that no other proof has to reason about a product |
| Simulation.ReadingAt | app/simulation/service.py:76-82 | every emitted channel is non-negative, and the reading carries the mode and the clock value |
| Simulation.WaterSensorSimulator.constructor | app/simulation/service.py:7-12 | a new simulator is in normal mode at tick 0 |
| Simulation.WaterSensorSimulator.SetMode | app/simulation/service.py:14-17 | the mode is set and the tick count restarts at 0 |
| Simulation.WaterSensorSimulator.GenerateNextReading | app/simulation/service.py:19-82 | the tick advances by exactly 1, the mode is unchanged, and the reading is that of the mode at the new tick |
| Simulation.NormalWithinNoise | app/simulation/service.py:27-35 | in normal mode pressure lies in [4.95, 5.05], flow in [99, 101] and acoustic in [9.5, 10.5], before and after rounding |
| Simulation.SmallLeakProfile | app/simulation/service.py:37-43 | the drop is min(2, 0.01 tick), reaches 2 exactly from tick 200, and pressure and flow follow it within the noise |
| Simulation.MajorBurstPhases | app/simulation/service.py:45-57 | ticks 1-2 are the spike (pressure near 2, flow near 250) and tick 3 on the sustained phase (pressure near 1.5, flow near 20) |
| Simulation.IntermittentCycle | app/simulation/service.py:61 | ticks 1-4 are closed, 5-9 open, 10-14 closed, with period 10 |
| Simulation.IntermittentMatchesModes | app/simulation/service.py:59-68 | the closed phase is exactly the normal reading; the open phase lowers pressure by 1.5 bar |
| Simulation.ValveFaultSwing | app/simulation/service.py:70-74 | pressure stays in [2.45, 7.55) and flow in [79, 121) |
| Analytics.LossQuery | app/analytics/router.py:29-32 | the query keeps exactly the readings whose mode is not "normal", each as often as it is stored, and no normal one |
| Analytics.LossOf | app/analytics/router.py:36-44 | a reading's loss is its flow above the baseline per 60, and 0 at or below it |
| Analytics.StoredReadingLoss | app/analytics/router.py:31-41 | a simulated reading is kept exactly when its mode is not normal, and its baseline is 20 exactly in a major burst |
| Analytics.LossSumNonNegative | app/analytics/router.py:34-44 | the total loss is never negative |
| Analytics.LossSumAppend | app/analytics/router.py:34-44 | the loss of two batches together is the sum of their losses |
| Analytics.LossSumGrows | app/analytics/router.py:34-44 | more readings never lower the total |
| Analytics.NormalReadingAddsNoLoss | app/analytics/router.py:29-32 | a normal-mode reading leaves the estimate unchanged whatever its flow |
| Analytics.EstimateLoss | app/analytics/router.py:34-48 | the loop accumulates exactly the loss sum, and the cost is 0.0015 per litre; both are non-negative |
| Analytics.LossSummary | app/analytics/router.py:28-55 | the summary's litres and dollars are the rounded loss and cost of the non-normal readings, both non-negative |
| Analytics.RiskScore | app/analytics/router.py:121 | the score is 25 per alert plus 10, capped at 100, so it lies in [10, 100] |
| Analytics.StatusOf | app/analytics/router.py:123-125 | Critical exactly above 70, Warning exactly on (40, 70], Safe otherwise |
| Analytics.StatusByAlertCount | app/analytics/router.py:121-125 | 0-1 alerts are Safe, 2 alerts a Warning at 60, 3 or more Critical |
| Analytics.RiskSegmentIdsAreDistinct | app/analytics/router.py:106-110 | the four segment keys are "Tank-A", "A-B", "A-C", "C-D" and are distinct |
| Analytics.RiskSegmentsArePipes | app/analytics/router.py:106 | the assessed segments are the network's four pipes, in edge order |
| Analytics.RiskAssessment | app/analytics/router.py:100-133 | the map has exactly the four segment keys, each holding the score, status and count of that segment's alerts |

## Left out

- Floating point: all arithmetic is on exact reals. `round` is round half to even on the exact value, so results that Python's binary doubles round differently (such as 2.675) are not modelled.
- Localization.ScanIsFirstArgmax: ties and their strict-`>` tie-break are ties over exact reals. Two deviations that are equal over the reals can compare either way in binary doubles (A-B and C-D under the collector's offsets, for example), so the earlier pipe wins only when the two computations are identical, as for A-B and A-C, which both compute p - (p - 0.4) - 0.3.
- Features.ExtractFromWindow: the flow deviation is `root` applied to the sample variance. `root` is a parameter that is only known to be non-negative and zero exactly at zero, so the model does not state its numerical value.
- Detection.SeverityScoreInRange: needs non-negative acoustic readings, as the simulator produces; the scorer itself puts no lower bound on the total.
- The isolation forest (fit with contamination 0.05 and a fixed seed, its labels and decision values) is an oracle. `Train` takes the fitting as a function parameter; the pandas frame is modelled as a sequence of rows.
- `random.uniform` becomes draws in [0, 1) passed in. Python may return the upper end of the range through rounding, which is not modelled.
- Simulation.ValveFaultSwing: `math.sin` and `math.cos` are parameters; the lemma assumes their values at the tick lie in [-1, 1].
- `datetime.now()` is a parameter, and timestamps are integers that are only copied.
- The analysis text is a datatype holding the reported drop and the two node names, not the formatted string.
- The network's edge order is fixed as the graph reports it for its insertion order (Tank-A, A-B, A-C, C-D); the graph library itself is not modelled.
- The detection buffer's capacity is a natural number. A negative `maxlen`, which Python rejects, is not modelled.
- The database is not modelled. The 30-day window, the incident counts, the average severity, the trends and sensor-stats endpoints, and the `contains` matching of alert locations are left out. Query results are inputs: the stored readings, and an alert count per segment.
- The background collector loop, the HTTP routers, WebSocket broadcast, notifications and all concurrency are left out. The collector's pressure offsets appear only as the inputs of `Localization.CollectorOffsetsSuspectAB`.

## Findings

| source | as written | input that shows it | evidently intended | confidence | as-written member | corrected member |
|---|---|---|---|---|---|---|
| app/localization/service.py:69 | the analysis reports `round(max_deviation + threshold, 2)`, where `threshold` is left over from the last evaluated edge | pressures Tank 6.5, A 5.0, B 4.7, C 4.7, D 4.5: Tank-A is suspected with a measured drop of 1.5 bar, but the text reports 1.2 (1.0 plus the C-D threshold 0.2) | the suspected segment's own drop, max_deviation plus that segment's threshold | high; not executed | Localization.ReportedDropUsesLastThreshold | Localization.CorrectedReportsSuspectedDrop |

The same slip shows in the collector's own inputs at base pressure 5.0: A-B is
suspected with a measured drop of 0.4 bar, but the text reports 0.3
(`Localization.CollectorOffsetsSuspectAB`, which proves this for every base
pressure over exact reals; in doubles some base pressures make C-D the suspect,
and its reported drop is then its own). The localizer's loop
(`Localization.WaterNetworkModel.LocalizeLeak`) models the code as written. The
suspect and the confidence do not depend on the slip; `Localization.LocalizeCorrected`
changes only the reported drop.
