/** The sensor simulator (app/simulation/service.py): a mode and a tick
    counter, and one reading per tick whose shape depends on the mode. The
    random draws, the trigonometric functions and the clock are parameters. */
module Simulation {
  import opened Numerics
  import opened Readings

  /** Baselines of the simulated sensor. */
  const PressureBase: real := 5.0
  const FlowBase: real := 100.0
  const AcousticBase: real := 10.0

  /** A draw of `random.random()`: a value in [0, 1). */
  type Unit = u: real | 0.0 <= u < 1.0

  /** A stand-in for `math.sin` or `math.cos`. */
  type Wave = real -> real

  /** The draws of one tick: the three noise terms, always drawn, and the
      extra acoustic term some modes draw after them. */
  datatype Draws = Draws(p: Unit, f: Unit, a: Unit, extra: Unit)

  /** `w * u`: a draw scaled to [0, w). */
  function Scale(w: real, u: Unit): (y: real)
    requires w > 0.0
    ensures 0.0 <= y < w
  {
    ScaleBelow(u, w);
    w * u
  }

  lemma ScaleBelow(u: Unit, w: real)
    requires w > 0.0
    ensures 0.0 <= w * u < w
  {
    assert w * (1.0 - u) > 0.0;
    assert w - w * u == w * (1.0 - u);
  }

  /** `random.uniform(lo, hi)` for a unit draw `u`. */
  function Uniform(lo: real, hi: real, u: Unit): (x: real)
    requires lo < hi
    ensures lo <= x < hi
  {
    lo + Scale(hi - lo, u)
  }

  /** The three channels before clamping and rounding. */
  datatype Raw = Raw(pressure: real, flow: real, acoustic: real)

  /** Whether the intermittent leak is open at this tick: ticks are grouped in
      fives, and every second group leaks. */
  predicate IntermittentOpen(tick: nat)
  {
    (tick / 5) % 2 != 0
  }

  /** The channels for `mode` at `tick` (the tick already incremented). */
  function RawReading(mode: SimulationMode, tick: nat, d: Draws, sin: Wave, cos: Wave): Raw
  {
    var np := Uniform(-0.05, 0.05, d.p);
    var nf := Uniform(-1.0, 1.0, d.f);
    var na := Uniform(-0.5, 0.5, d.a);
    match mode
    case Normal =>
      Raw(PressureBase + np, FlowBase + nf, AcousticBase + na)
    case SmallLeak =>
      Raw(PressureBase - Min(2.0, tick as real * 0.01) + np,
          FlowBase + tick as real * 0.2 + nf,
          AcousticBase + 5.0 + Uniform(0.0, 2.0, d.extra))
    case MajorBurst =>
      if tick < 3 then
        Raw(PressureBase - 3.0 + np, FlowBase * 2.5 + nf, AcousticBase + 50.0 + Uniform(0.0, 10.0, d.extra))
      else
        Raw(1.5 + np, FlowBase * 0.2 + nf, AcousticBase + 30.0 + Uniform(0.0, 5.0, d.extra))
    case Intermittent =>
      if !IntermittentOpen(tick) then
        Raw(PressureBase + np, FlowBase + nf, AcousticBase + na)
      else
        Raw(PressureBase - 1.5 + np, FlowBase + 15.0 + nf, AcousticBase + 12.0 + Uniform(0.0, 3.0, d.extra))
    case ValveFault =>
      Raw(PressureBase + sin(tick as real * 0.5) * 2.5 + np,
          FlowBase + cos(tick as real * 0.5) * 20.0 + nf,
          AcousticBase + 8.0 + na)
  }

  /** The emitted reading: each channel clamped at 0 and rounded (pressure to
      three decimals, flow and acoustic to two), tagged with the mode. No
      channel is ever negative. */
  function ReadingAt(mode: SimulationMode, tick: nat, d: Draws, sin: Wave, cos: Wave, now: Timestamp): (r: SensorData)
    ensures r.pressure >= 0.0 && r.flowRate >= 0.0 && r.acousticSignal >= 0.0
    ensures r.mode == mode && r.timestamp == now
  {
    var raw := RawReading(mode, tick, d, sin, cos);
    RoundNonNegative(Max(0.0, raw.pressure), 3);
    RoundNonNegative(Max(0.0, raw.flow), 2);
    RoundNonNegative(Max(0.0, raw.acoustic), 2);
    SensorData(now, Round(Max(0.0, raw.pressure), 3), Round(Max(0.0, raw.flow), 2),
               Round(Max(0.0, raw.acoustic), 2), mode)
  }

  class WaterSensorSimulator {
    var mode: SimulationMode
    var tickCount: nat

    constructor ()
      ensures mode == Normal && tickCount == 0
    {
      mode := Normal;
      tickCount := 0;
    }

    /** `set_mode`: switch mode and restart the tick count, so a mode's
        effects start from their beginning. */
    method SetMode(m: SimulationMode)
      modifies this
      ensures mode == m && tickCount == 0
    {
      mode := m;
      tickCount := 0;
    }

    /** `generate_next_reading`: advance the tick, then build the reading for
        the current mode at the new tick. */
    method GenerateNextReading(d: Draws, sin: Wave, cos: Wave, now: Timestamp) returns (r: SensorData)
      modifies this`tickCount
      ensures tickCount == old(tickCount) + 1
      ensures r == ReadingAt(mode, tickCount, d, sin, cos, now)
    {
      tickCount := tickCount + 1;
      var pressure, flowRate, acoustic := PressureBase, FlowBase, AcousticBase;
      var noiseP := Uniform(-0.05, 0.05, d.p);
      var noiseF := Uniform(-1.0, 1.0, d.f);
      var noiseA := Uniform(-0.5, 0.5, d.a);
      var t := tickCount as real;
      match mode {
        case Normal =>
          pressure := pressure + noiseP;
          flowRate := flowRate + noiseF;
          acoustic := acoustic + noiseA;
        case SmallLeak =>
          var pressureDrop := Min(2.0, t * 0.01);
          pressure := PressureBase - pressureDrop + noiseP;
          flowRate := FlowBase + t * 0.2 + noiseF;
          acoustic := AcousticBase + 5.0 + Uniform(0.0, 2.0, d.extra);
        case MajorBurst =>
          if tickCount < 3 {
            pressure := PressureBase - 3.0 + noiseP;
            flowRate := FlowBase * 2.5 + noiseF;
            acoustic := AcousticBase + 50.0 + Uniform(0.0, 10.0, d.extra);
          } else {
            pressure := 1.5 + noiseP;
            flowRate := FlowBase * 0.2 + noiseF;
            acoustic := AcousticBase + 30.0 + Uniform(0.0, 5.0, d.extra);
          }
        case Intermittent =>
          if (tickCount / 5) % 2 == 0 {
            pressure := pressure + noiseP;
            flowRate := flowRate + noiseF;
            acoustic := acoustic + noiseA;
          } else {
            pressure := PressureBase - 1.5 + noiseP;
            flowRate := FlowBase + 15.0 + noiseF;
            acoustic := AcousticBase + 12.0 + Uniform(0.0, 3.0, d.extra);
          }
        case ValveFault =>
          pressure := PressureBase + sin(t * 0.5) * 2.5 + noiseP;
          flowRate := FlowBase + cos(t * 0.5) * 20.0 + noiseF;
          acoustic := AcousticBase + 8.0 + noiseA;
      }
      assert Raw(pressure, flowRate, acoustic) == RawReading(mode, tickCount, d, sin, cos);
      r := SensorData(now, Round(Max(0.0, pressure), 3), Round(Max(0.0, flowRate), 2),
                      Round(Max(0.0, acoustic), 2), mode);
    }
  }

  // ---------------------------------------------------------------------------
  // What each mode produces

  /** Normal operation stays within the noise band of the baselines, before
      and after rounding: pressure in [4.95, 5.05], flow in [99, 101],
      acoustic in [9.5, 10.5]. */
  lemma NormalWithinNoise(tick: nat, d: Draws, sin: Wave, cos: Wave, now: Timestamp)
    ensures var raw := RawReading(Normal, tick, d, sin, cos);
      4.95 <= raw.pressure < 5.05 && 99.0 <= raw.flow < 101.0 && 9.5 <= raw.acoustic < 10.5
    ensures var r := ReadingAt(Normal, tick, d, sin, cos, now);
      4.95 <= r.pressure <= 5.05 && 99.0 <= r.flowRate <= 101.0 && 9.5 <= r.acousticSignal <= 10.5
  {
    var raw := RawReading(Normal, tick, d, sin, cos);
    RoundBetween(raw.pressure, 4950, 5050, 3);
    RoundBetween(raw.flow, 9900, 10100, 2);
    RoundBetween(raw.acoustic, 950, 1050, 2);
  }

  /** A small leak lowers the pressure by 0.01 bar per tick until the drop
      saturates at 2 bar (from tick 200 on), and raises the flow by 0.2 L/min
      per tick without bound. */
  lemma SmallLeakProfile(tick: nat, d: Draws, sin: Wave, cos: Wave)
    ensures var raw := RawReading(SmallLeak, tick, d, sin, cos);
      var drop := Min(2.0, tick as real * 0.01);
      && 0.0 <= drop <= 2.0
      && (drop == 2.0 <==> tick >= 200)
      && PressureBase - drop - 0.05 <= raw.pressure < PressureBase - drop + 0.05
      && FlowBase + tick as real * 0.2 - 1.0 <= raw.flow < FlowBase + tick as real * 0.2 + 1.0
      && 15.0 <= raw.acoustic < 17.0
  {
  }

  /** A burst first spikes (ticks 1 and 2: pressure near 2 bar, flow near
      250 L/min, acoustic at least 60), then settles (tick 3 on: pressure near
      1.5 bar, flow near 20 L/min, acoustic in [40, 45)). */
  lemma MajorBurstPhases(tick: nat, d: Draws, sin: Wave, cos: Wave)
    ensures var raw := RawReading(MajorBurst, tick, d, sin, cos);
      tick < 3 ==>
        1.95 <= raw.pressure < 2.05 && 249.0 <= raw.flow < 251.0 && 60.0 <= raw.acoustic < 70.0
    ensures var raw := RawReading(MajorBurst, tick, d, sin, cos);
      tick >= 3 ==>
        1.45 <= raw.pressure < 1.55 && 19.0 <= raw.flow < 21.0 && 40.0 <= raw.acoustic < 45.0
  {
  }

  /** The intermittent leak alternates in blocks of five ticks: after a mode
      change ticks 1-4 are normal, 5-9 leak, 10-14 are normal, and the pattern
      repeats every ten ticks. */
  lemma {:induction false} IntermittentCycle(tick: nat)
    ensures IntermittentOpen(tick + 10) == IntermittentOpen(tick)
    ensures 1 <= tick <= 4 ==> !IntermittentOpen(tick)
    ensures 5 <= tick <= 9 ==> IntermittentOpen(tick)
    ensures 10 <= tick <= 14 ==> !IntermittentOpen(tick)
  {
    assert (tick + 10) / 5 == tick / 5 + 2;
  }

  /** While the intermittent leak is closed the reading is the normal one;
      while it is open the pressure sits 1.5 bar lower. */
  lemma IntermittentMatchesModes(tick: nat, d: Draws, sin: Wave, cos: Wave)
    ensures !IntermittentOpen(tick) ==>
      RawReading(Intermittent, tick, d, sin, cos) == RawReading(Normal, tick, d, sin, cos)
    ensures IntermittentOpen(tick) ==>
      RawReading(Intermittent, tick, d, sin, cos).pressure
        == RawReading(Normal, tick, d, sin, cos).pressure - 1.5
  {
  }

  /** A valve fault swings pressure by at most 2.5 bar and flow by at most
      20 L/min around the baselines (plus noise), given sine and cosine values
      in [-1, 1] at this tick. */
  lemma ValveFaultSwing(tick: nat, d: Draws, sin: Wave, cos: Wave)
    requires -1.0 <= sin(tick as real * 0.5) <= 1.0 && -1.0 <= cos(tick as real * 0.5) <= 1.0
    ensures var raw := RawReading(ValveFault, tick, d, sin, cos);
      && 2.45 <= raw.pressure < 7.55
      && 79.0 <= raw.flow < 121.0
      && 17.5 <= raw.acoustic < 18.5
  {
  }
}
