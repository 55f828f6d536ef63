/** The metrics snapshot: the dict `get_all_metrics` returns, one section per
    key, and everything the host would report while it is assembled. */
module Snapshot {
  import opened Wrappers
  import opened Probes
  import opened Temperature
  import opened Throttle

  /** One value of the snapshot dict. */
  datatype Section =
    | SystemSection(system: SystemInfo)
    | CpuSection(cpu: CpuInfo)
    | MemorySection(memory: MemoryInfo)
    | TemperatureSection(temperature: TemperatureInfo)
    | VoltageSection(voltage: VoltageInfo)
    | NetworkSection(network: NetworkInfo)
    | DiskSection(disk: DiskInfo)
    | ProcessCountSection(processCount: ProcessCount)

  type Metrics = map<string, Section>

  const SystemKey := "system"
  const CpuKey := "cpu"
  const MemoryKey := "memory"
  const TemperatureKey := "temperature"
  const VoltageKey := "voltage"
  const NetworkKey := "network"
  const DiskKey := "disk"
  const ProcessCountKey := "process_count"

  /** The seven keys both services produce. */
  const SharedKeys: set<string> :=
    {SystemKey, CpuKey, MemoryKey, TemperatureKey, VoltageKey, NetworkKey, DiskKey}

  /** Everything the OS reports during one `get_all_metrics` call, apart from
      the CPU readings, whose use differs between the two services. */
  datatype HostReadings = HostReadings(
    platform: SystemInfo,               // the five platform.* strings
    memory: Probe<MemoryUsage>,         // psutil.virtual_memory()
    measureTemp: Command,               // vcgencmd measure_temp
    sensors: Probe<seq<SensorGroup>>,   // psutil.sensors_temperatures()
    getThrottled: Command,              // vcgencmd get_throttled
    network: Probe<NetCounters>,        // psutil.net_io_counters()
    diskUsage: Probe<DiskUsage>,        // psutil.disk_usage('/')
    diskIo: Probe<Option<DiskIo>>,      // psutil.disk_io_counters()
    pids: Probe<seq<nat>>)              // psutil.pids()

  /** The Python conversions the probes apply to numbers: `float()`, the
      f-string rendering of a reading, and `round(x, 2)`. */
  datatype Conversions = Conversions(parseFloat: string -> Option<real>, render: real -> string,
                                     round2: real -> real)

  /** The seven sections both services build the same way, given the CPU
      section (built differently in each) and the fallback's unit suffix. */
  function SharedSections(h: HostReadings, cpu: CpuInfo, unit: string, conv: Conversions): (m: Metrics)
    ensures m.Keys == SharedKeys
    ensures m[SystemKey] == SystemSection(h.platform)
    ensures m[CpuKey] == CpuSection(cpu)
    ensures m[MemoryKey] == MemorySection(MemoryProbe(h.memory, conv.round2))
    ensures m[TemperatureKey] ==
      TemperatureSection(CpuTemperature(h.measureTemp, h.sensors, conv.parseFloat, conv.render, unit))
    ensures m[VoltageKey] == VoltageSection(ThrottleStatus(h.getThrottled))
    ensures m[NetworkKey] == NetworkSection(NetworkProbe(h.network, conv.round2))
    ensures m[DiskKey] == DiskSection(DiskProbe(h.diskUsage, h.diskIo, conv.round2))
  {
    map[SystemKey := SystemSection(h.platform),
        CpuKey := CpuSection(cpu),
        MemoryKey := MemorySection(MemoryProbe(h.memory, conv.round2)),
        TemperatureKey :=
          TemperatureSection(CpuTemperature(h.measureTemp, h.sensors, conv.parseFloat, conv.render, unit)),
        VoltageKey := VoltageSection(ThrottleStatus(h.getThrottled)),
        NetworkKey := NetworkSection(NetworkProbe(h.network, conv.round2)),
        DiskKey := DiskSection(DiskProbe(h.diskUsage, h.diskIo, conv.round2))]
  }

  /** The seven shared keys are distinct, and `process_count` is not one of them. */
  lemma SharedKeysDistinct()
    ensures |SharedKeys| == 7
    ensures ProcessCountKey !in SharedKeys
  {
  }
}
