/** The domain model shared by the planner, the executor and the coordinator.

    Instants are whole UTC seconds. Identifiers are strings in the source; only
    their total order matters, so they are integers here. Decimals are reals. */
module Domain {

  type Instant = int
  type ZoneId = int
  type ProgramId = int
  type OccurrenceId = int

  datatype Option<+T> = None | Some(value: T)

  const MAX_COMMAND_MINUTES := 1440
  const MAX_COMMAND_ATTEMPTS := 5
  const OBSERVATION_FRESHNESS_WINDOW_SECONDS := 90
  const DEDUP_MAX_OCCURRENCES := 500

  function Max(a: int, b: int): int { if a < b then b else a }

  function Min(a: int, b: int): int { if a < b then a else b }

  // ---------------------------------------------------------------------
  // Compiled plans

  /** One compiled controller command: a single zone cycle. */
  datatype RunStep = RunStep(
    zone: ZoneId,
    cycleIndex: nat,
    cycleCount: nat,
    requestedStart: Instant,
    plannedStart: Instant,
    plannedEnd: Instant,
    duration: nat,
    soakBefore: bool)

  /** The executable plan of one occurrence. A step's index is its position. */
  datatype RunPlan = RunPlan(
    occurrence: OccurrenceId,
    program: ProgramId,
    requestedStart: Instant,
    steps: seq<RunStep>)

  // ---------------------------------------------------------------------
  // Policies and configuration read by the executor

  datatype SensorCutBehavior = AbortRun | PauseUntilDry | DeferRemaining

  datatype InterruptionPolicy = Abort | Pause

  datatype RainPolicy = RainPolicy(
    honorNativeDelay: bool,
    skipWhenSensorWet: bool,
    sensorCutBehavior: SensorCutBehavior)

  datatype FreezePolicy = FreezePolicy(
    skipWhenFreezing: bool,
    freezeCutBehavior: SensorCutBehavior)

  datatype TemperatureUnit = Celsius | Fahrenheit

  datatype FreezeUnavailablePolicy = AllowWatering | BlockWatering

  datatype FreezeGuard = FreezeGuard(
    enabled: bool,
    threshold: real,
    unit: TemperatureUnit,
    whenUnavailable: FreezeUnavailablePolicy)
  {
    function ThresholdCelsius(): real {
      if unit == Fahrenheit then (threshold - 32.0) * 5.0 / 9.0 else threshold
    }
  }

  datatype Config = Config(
    interZoneGap: int,
    startObservationTimeout: int,
    earlyEndTolerance: int,
    overrunConfirmation: int,
    missedRunToleranceMinutes: int,
    defaultRainPolicy: RainPolicy,
    defaultFreezePolicy: FreezePolicy,
    freezeGuard: FreezeGuard)

  datatype ProgramPolicies = ProgramPolicies(
    rain: RainPolicy,
    freeze: FreezePolicy,
    interruption: InterruptionPolicy)

  // ---------------------------------------------------------------------
  // Observations

  datatype Observation = Observation(
    observedAt: Instant,
    active: set<ZoneId>,
    rainSensor: Option<bool>,
    rainDelayDays: Option<int>,
    sourceAvailable: bool,
    temperature: Option<real>,
    reportedAt: map<ZoneId, Instant>)
  {
    /** When the zone's state was last confirmed by the source. */
    function ZoneReportedAt(zone: ZoneId): Instant {
      if zone in reportedAt then reportedAt[zone] else observedAt
    }

    predicate Wet() { rainSensor == Some(true) }
  }

  /** Is the temperature at or below the threshold? `None` when unknown. */
  function FreezeActive(guard: FreezeGuard, observation: Observation): Option<bool> {
    if !guard.enabled || observation.temperature.None? then None
    else Some(observation.temperature.value <= guard.ThresholdCelsius())
  }

  /** Has the temperature climbed one full degree above the threshold? */
  predicate FreezeCleared(guard: FreezeGuard, observation: Observation) {
    observation.temperature.Some? &&
    observation.temperature.value >= guard.ThresholdCelsius() + 1.0
  }
}
