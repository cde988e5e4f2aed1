/** The readings the system monitor takes on every tick, and the two value rules that turn
    raw sensor answers into chart points: the temperature choice with its fallbacks and the
    network total in megabytes. The metrics provider itself is outside the model; what it
    answered on a tick is passed in as a `Tick` value. */
module Samples {

  /** Name of the sensor chip whose first reading is charted. */
  const CORETEMP_CHIP: string := "coretemp"

  /** Value recorded when no core temperature can be read. */
  const TEMPERATURE_SENTINEL: real := 0.0

  /** Divisor that turns a byte count into megabytes. */
  const BYTES_PER_MEGABYTE: nat := 1024 * 1024

  /** One reading of a temperature sensor; only its current value is used. */
  datatype TemperatureReading = TemperatureReading(current: real)

  /** The answer to the temperature-sensor query: either the query raised, or it
      returned the readings of every sensor chip, keyed by chip name. */
  datatype SensorQuery =
    | QueryFailed
    | Sensors(chips: map<string, seq<TemperatureReading>>)

  /** The cumulative byte counters of all network interfaces. */
  datatype NetCounters = NetCounters(bytesSent: nat, bytesRecv: nat)

  /** Everything the metrics provider answered during one tick. */
  datatype Tick = Tick(
    cpuPercent: real,
    memoryPercent: real,
    diskPercent: real,
    net: NetCounters,
    sensors: SensorQuery)

  /** The five values one tick appends, one per chart. */
  datatype Sample = Sample(cpu: real, memory: real, disk: real, network: real, temperature: real)

  /** How the guarded temperature block ends: having appended a value, or by raising. */
  datatype TryOutcome = Appended(value: real) | Raised

  /** The guarded block of the temperature step. A failed query raises; a present chip
      with no readings raises when its first reading is indexed; a missing chip appends
      the sentinel. */
  function TemperatureTry(q: SensorQuery): (r: TryOutcome)
    ensures r == Raised <==>
      q.QueryFailed? || (CORETEMP_CHIP in q.chips && |q.chips[CORETEMP_CHIP]| == 0)
    ensures r.Appended? ==> q.Sensors?
    ensures r.Appended? ==> r.value == (if CORETEMP_CHIP in q.chips
      then q.chips[CORETEMP_CHIP][0].current else TEMPERATURE_SENTINEL)
  {
    match q
    case QueryFailed => Raised
    case Sensors(chips) =>
      if CORETEMP_CHIP in chips then
        if |chips[CORETEMP_CHIP]| == 0 then Raised
        else Appended(chips[CORETEMP_CHIP][0].current)
      else Appended(TEMPERATURE_SENTINEL)
  }

  /** The query succeeded and the core temperature chip has at least one reading. */
  predicate HasCoreTemperature(q: SensorQuery) {
    q.Sensors? && CORETEMP_CHIP in q.chips && |q.chips[CORETEMP_CHIP]| > 0
  }

  /** The temperature point of a tick: the guarded block's value, or the sentinel when
      the block raised. The result is the first core reading when there is one and the
      sentinel in every other case. */
  function TemperatureSample(q: SensorQuery): (t: real)
    ensures HasCoreTemperature(q) ==> t == q.chips[CORETEMP_CHIP][0].current
    ensures !HasCoreTemperature(q) ==> t == TEMPERATURE_SENTINEL
  {
    match TemperatureTry(q)
    case Appended(v) => v
    case Raised => TEMPERATURE_SENTINEL
  }

  /** The network point of a tick: all bytes sent and received so far, in megabytes.
      It is a running total, computed from the current counters alone. */
  function NetworkUsage(c: NetCounters): (mb: real)
    ensures mb >= 0.0
    ensures mb * (BYTES_PER_MEGABYTE as real) == (c.bytesSent + c.bytesRecv) as real
  {
    (c.bytesSent + c.bytesRecv) as real / (BYTES_PER_MEGABYTE as real)
  }

  /** Counters never decrease between ticks, so neither does the charted network total. */
  lemma NetworkUsageMonotone(earlier: NetCounters, later: NetCounters)
    requires earlier.bytesSent <= later.bytesSent && earlier.bytesRecv <= later.bytesRecv
    ensures NetworkUsage(earlier) <= NetworkUsage(later)
  {
  }

  /** The five points a tick appends: the three percentages as read, the network total in
      megabytes, and the core temperature or its sentinel. */
  function SampleOf(t: Tick): (x: Sample)
    ensures x.cpu == t.cpuPercent && x.memory == t.memoryPercent && x.disk == t.diskPercent
    ensures x.network * (BYTES_PER_MEGABYTE as real) == (t.net.bytesSent + t.net.bytesRecv) as real
    ensures HasCoreTemperature(t.sensors) ==> x.temperature == t.sensors.chips[CORETEMP_CHIP][0].current
    ensures !HasCoreTemperature(t.sensors) ==> x.temperature == TEMPERATURE_SENTINEL
  {
    Sample(t.cpuPercent, t.memoryPercent, t.diskPercent, NetworkUsage(t.net), TemperatureSample(t.sensors))
  }
}
