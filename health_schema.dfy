/** The response records of baja_testbench/models/health.py as predicates on
    the snapshot: which sections a `HealthResponse(**metrics)` accepts.
    A record's required fields become "the section is the success variant",
    `Field(ge=0, le=100)` becomes a range test, and keys the record does not
    declare are ignored, as Pydantic does by default. */
module HealthSchema {
  import opened Wrappers
  import opened Strings
  import opened Probes
  import opened Temperature
  import opened Throttle
  import opened Snapshot
  import BajaMetrics
  import AppMetrics

  predicate IsPercent(x: real) {
    0.0 <= x <= 100.0
  }

  /** `CPUInfo`: `usage_percent` in [0, 100] and an integer `count`; the
      three frequencies are optional. */
  predicate ValidCpu(c: CpuInfo) {
    c.Cpu? && IsPercent(c.usagePercent) && c.count.Some?
  }

  /** `MemoryInfo`: all seven fields, `percent` in [0, 100]. */
  predicate ValidMemory(m: MemoryInfo) {
    m.Memory? && IsPercent(m.percent)
  }

  /** `VoltageInfo`: `raw`, `status` and `available` required; `hex_value`
      and `flags` optional. */
  predicate ValidVoltage(v: VoltageInfo) {
    v.status.Some?
  }

  /** `NetworkInfo`: all ten fields. */
  predicate ValidNetwork(n: NetworkInfo) {
    n.Network?
  }

  /** `DiskInfo`: a `root` whose `percent` lies in [0, 100]; `io` optional. */
  predicate ValidDisk(d: DiskInfo) {
    d.Disk? && IsPercent(d.root.percent)
  }

  /** `HealthResponse`: the seven declared keys, each a valid record.
      `SystemInfo` and `TemperatureInfo` accept every value of their
      datatypes (`raw` and `available` are always there, `celsius` may be
      `None`), so only the section's kind is checked for them. */
  predicate ValidHealthResponse(m: Metrics) {
    && SystemKey in m && m[SystemKey].SystemSection?
    && CpuKey in m && m[CpuKey].CpuSection? && ValidCpu(m[CpuKey].cpu)
    && MemoryKey in m && m[MemoryKey].MemorySection? && ValidMemory(m[MemoryKey].memory)
    && TemperatureKey in m && m[TemperatureKey].TemperatureSection?
    && VoltageKey in m && m[VoltageKey].VoltageSection? && ValidVoltage(m[VoltageKey].voltage)
    && NetworkKey in m && m[NetworkKey].NetworkSection? && ValidNetwork(m[NetworkKey].network)
    && DiskKey in m && m[DiskKey].DiskSection? && ValidDisk(m[DiskKey].disk)
  }

  /** The throttle probe fits `VoltageInfo` except in its parse-failure
      shape `{raw, available: True}`, which has no `status`. */
  lemma VoltageValidUnlessUnparsed(cmd: Command)
    ensures ValidVoltage(ThrottleStatus(cmd)) <==>
      !(cmd.Completed? && cmd.returnCode == 0 && ThrottledValue(Strip(cmd.stdout)).None?)
  {
  }

  /** Every temperature the probe can return fits `TemperatureInfo`, the
      unavailable one with `celsius = None` included: the section never
      decides validity. */
  lemma TemperatureNeverInvalidates(m: Metrics, t: TemperatureInfo)
    requires TemperatureKey in m && m[TemperatureKey].TemperatureSection?
    ensures ValidHealthResponse(m[TemperatureKey := TemperatureSection(t)]) == ValidHealthResponse(m)
  {
    var m' := m[TemperatureKey := TemperatureSection(t)];
    assert forall k :: k != TemperatureKey && k in m ==> k in m' && m'[k] == m[k];
  }

  /** Keys `HealthResponse` does not declare, such as `process_count`, are
      ignored. */
  lemma UndeclaredKeysIgnored(m: Metrics, k: string, s: Section)
    requires k !in SharedKeys
    ensures ValidHealthResponse(m[k := s]) == ValidHealthResponse(m)
  {
    var m' := m[k := s];
    assert forall j :: j in SharedKeys ==> (j in m' <==> j in m) && (j in m ==> m'[j] == m[j]);
  }

  /** The three frequencies default to `None`: a CPU record without
      `cpu_freq()` is accepted when usage and count are. */
  lemma FrequencyOptional(usage: real, count: nat)
    requires IsPercent(usage)
    ensures ValidCpu(CpuRecord(usage, Some(count), None))
  {
  }

  /** A snapshot of the stateless service passes `HealthResponse` exactly when
      each psutil call succeeded with in-range percentages, `cpu_count()`
      gave a number, and the throttle output was not unparsed. */
  lemma AppResponseValidIff(h: HostReadings, cpu: AppMetrics.CpuReadings, conv: Conversions)
    ensures ValidHealthResponse(AppMetrics.GetAllMetrics(h, cpu, conv)) <==>
      && cpu.usage.Returned? && IsPercent(cpu.usage.value)
      && cpu.count.Returned? && cpu.count.value.Some? && cpu.frequency.Returned?
      && h.memory.Returned? && IsPercent(h.memory.value.percent)
      && !(h.getThrottled.Completed? && h.getThrottled.returnCode == 0
           && ThrottledValue(Strip(h.getThrottled.stdout)).None?)
      && h.network.Returned?
      && h.diskUsage.Returned? && h.diskIo.Returned? && IsPercent(h.diskUsage.value.percent)
  {
    var m := AppMetrics.GetAllMetrics(h, cpu, conv);
    assert m[SystemKey] == SystemSection(h.platform);
    assert m[CpuKey] == CpuSection(AppMetrics.GetCpuInfo(cpu));
    assert m[MemoryKey] == MemorySection(MemoryProbe(h.memory, conv.round2));
    assert m[TemperatureKey].TemperatureSection?;
    assert m[VoltageKey] == VoltageSection(ThrottleStatus(h.getThrottled));
    assert m[NetworkKey] == NetworkSection(NetworkProbe(h.network, conv.round2));
    assert m[DiskKey] == DiskSection(DiskProbe(h.diskUsage, h.diskIo, conv.round2));
    VoltageValidUnlessUnparsed(h.getThrottled);
    assert ValidCpu(m[CpuKey].cpu) <==>
      cpu.usage.Returned? && IsPercent(cpu.usage.value) && cpu.count.Returned? && cpu.count.value.Some?
      && cpu.frequency.Returned?;
    assert ValidMemory(m[MemoryKey].memory) <==> h.memory.Returned? && IsPercent(h.memory.value.percent);
    assert ValidDisk(m[DiskKey].disk) <==>
      h.diskUsage.Returned? && h.diskIo.Returned? && IsPercent(h.diskUsage.value.percent);
  }

  /** The CPU section of the stateful service fits `CPUInfo` whenever the
      cache and psutil's readings lie in [0, 100] and every call the sample
      reaches succeeds. */
  lemma SampledCpuValid(s: BajaMetrics.SamplerState, r: BajaMetrics.CpuReadings, c: nat)
    requires 0.0 <= s.lastPercent <= 100.0 && BajaMetrics.PercentReadings(r)
    requires r.nonBlocking.Returned? && (BajaMetrics.Reached(s, r) ==> r.blocking.Returned?)
    requires r.count == Returned(Some(c)) && r.frequency.Returned?
    ensures ValidCpu(BajaMetrics.Sample(s, r).info)
  {
    BajaMetrics.SampleWithinRange(s, r);
  }

  /** Removing a key `HealthResponse` does not declare changes nothing. */
  lemma UndeclaredKeyRemoved(m: Metrics, k: string)
    requires k !in SharedKeys
    ensures ValidHealthResponse(m - {k}) == ValidHealthResponse(m)
  {
    var m' := m - {k};
    assert forall j :: j in SharedKeys ==> (j in m' <==> j in m) && (j in m ==> m'[j] == m[j]);
  }

  /** The stateful service's eighth key changes nothing: its snapshot passes
      `HealthResponse` exactly when it does without `process_count`. */
  lemma BajaExtraKeyIgnored(s: BajaMetrics.SamplerState, h: HostReadings, warmUp: Probe<real>,
                            cpu: BajaMetrics.CpuReadings, conv: Conversions)
    ensures
      var m := BajaMetrics.AllMetrics(s, h, warmUp, cpu, conv).metrics;
      ValidHealthResponse(m) == ValidHealthResponse(m - {ProcessCountKey})
  {
    SharedKeysDistinct();
    UndeclaredKeyRemoved(BajaMetrics.AllMetrics(s, h, warmUp, cpu, conv).metrics, ProcessCountKey);
  }
}
