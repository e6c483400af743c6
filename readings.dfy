/** Sensor records shared by the simulator, the detection buffer and analytics
    (app/simulation/models.py). */
module Readings {

  /** A point in time; the model only compares and copies timestamps. */
  type Timestamp = int

  /** The five operating modes a reading is tagged with. */
  datatype SimulationMode = Normal | SmallLeak | MajorBurst | Intermittent | ValveFault

  /** The string value of each mode, as stored and compared in the database. */
  function ModeName(m: SimulationMode): string
  {
    match m
    case Normal => "normal"
    case SmallLeak => "small_leak"
    case MajorBurst => "major_burst"
    case Intermittent => "intermittent"
    case ValveFault => "valve_fault"
  }

  /** Distinct modes are stored as distinct strings, so a mode filter on the
      stored text selects exactly the readings of that mode. */
  lemma ModeNameInjective(m1: SimulationMode, m2: SimulationMode)
    ensures ModeName(m1) == ModeName(m2) <==> m1 == m2
  {
  }

  /** One sensor reading: pressure in bar, flow rate in L/min, acoustic amplitude. */
  datatype SensorData = SensorData(
    timestamp: Timestamp,
    pressure: real,
    flowRate: real,
    acousticSignal: real,
    mode: SimulationMode)
}
