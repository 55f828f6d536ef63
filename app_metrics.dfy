/** `SystemMetricsService` of app/services/system_metrics.py: the stateless
    variant. Its temperature, throttle, memory, network, disk and system
    probes are the ones in `Temperature`, `Throttle` and `Probes`; only the
    CPU probe and the snapshot's key set differ. */
module AppMetrics {
  import opened Wrappers
  import opened Strings
  import opened Probes
  import opened Temperature
  import opened Throttle
  import opened Snapshot
  import BajaMetrics

  /** The psutil calls of this `get_cpu_info`: one blocking
      `cpu_percent(interval=0.1)`, then `cpu_count()` and `cpu_freq()`. */
  datatype CpuReadings = CpuReadings(usage: Probe<real>, count: Probe<Option<nat>>,
                                     frequency: Probe<Option<CpuFrequency>>)

  /** `get_cpu_info`: the usage is the one blocking reading, and the first
      call that raises gives exactly `{"error": str(e)}`. */
  function GetCpuInfo(r: CpuReadings): (c: CpuInfo)
    ensures c.Cpu? <==> r.usage.Returned? && r.count.Returned? && r.frequency.Returned?
    ensures c.Cpu? ==> c == CpuRecord(r.usage.value, r.count.value, r.frequency.value)
    ensures r.usage.Raised? ==> c == CpuError(r.usage.message)
    ensures r.usage.Returned? && r.count.Raised? ==> c == CpuError(r.count.message)
    ensures r.usage.Returned? && r.count.Returned? && r.frequency.Raised? ==> c == CpuError(r.frequency.message)
  {
    match r.usage
    case Raised(e) => CpuError(e)
    case Returned(p) => CpuTail(p, r.count, r.frequency)
  }

  /** `get_all_metrics`: exactly the seven shared keys, with no
      `process_count`. */
  function GetAllMetrics(h: HostReadings, cpu: CpuReadings, conv: Conversions): (m: Metrics)
    ensures m.Keys == SharedKeys && |m| == 7
    ensures ProcessCountKey !in m
    ensures m[CpuKey] == CpuSection(GetCpuInfo(cpu))
    ensures m[SystemKey] == SystemSection(h.platform)
    ensures m[MemoryKey] == MemorySection(MemoryProbe(h.memory, conv.round2))
    ensures m[TemperatureKey] ==
      TemperatureSection(CpuTemperature(h.measureTemp, h.sensors, conv.parseFloat, conv.render, AppUnit))
    ensures m[VoltageKey] == VoltageSection(ThrottleStatus(h.getThrottled))
    ensures m[NetworkKey] == NetworkSection(NetworkProbe(h.network, conv.round2))
    ensures m[DiskKey] == DiskSection(DiskProbe(h.diskUsage, h.diskIo, conv.round2))
  {
    SharedKeysDistinct();
    SharedSections(h, GetCpuInfo(cpu), AppUnit, conv)
  }

  /** Stateless: the snapshot is a function of the readings of this call
      alone, and `psutil.pids()` is never consulted. */
  lemma IgnoresProcessList(h: HostReadings, cpu: CpuReadings, conv: Conversions, pids: Probe<seq<nat>>)
    ensures GetAllMetrics(h, cpu, conv) == GetAllMetrics(h.(pids := pids), cpu, conv)
  {
  }

  /** The two services agree on every section except `cpu` and
      `temperature`, and on temperature they differ at most in the unit
      text of the fallback's `raw`. */
  lemma ServicesAgree(s: BajaMetrics.SamplerState, h: HostReadings, warmUp: Probe<real>,
                      bajaCpu: BajaMetrics.CpuReadings, appCpu: CpuReadings, conv: Conversions)
    ensures
      var b := BajaMetrics.AllMetrics(s, h, warmUp, bajaCpu, conv).metrics;
      var a := GetAllMetrics(h, appCpu, conv);
      b[SystemKey] == a[SystemKey] && b[MemoryKey] == a[MemoryKey] && b[VoltageKey] == a[VoltageKey]
      && b[NetworkKey] == a[NetworkKey] && b[DiskKey] == a[DiskKey]
      && b[TemperatureKey].temperature.celsius == a[TemperatureKey].temperature.celsius
      && b[TemperatureKey].temperature.available == a[TemperatureKey].temperature.available
  {
  }

  /** A `get_throttled` output with no `=`, or whose second segment is not
      hex, gives `{raw, available: True}` without `status`. */
  lemma ParseFailureLacksStatus(out: string)
    requires ThrottledValue(Strip(out)).None?
    ensures ThrottleStatus(Completed(0, out)) == VoltageInfo(Strip(out), None, None, None, true)
  {
  }
}
