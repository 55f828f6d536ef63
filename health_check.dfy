/** `HealthCheckModule` of modules/health_check/service.py: a first-match
    threshold rule over a snapshot of the stateless service, and the
    snapshot with the verdict added under `health_status`. */
module HealthCheck {
  import opened Wrappers
  import opened Strings
  import opened Throttle
  import opened Snapshot
  import AppMetrics

  /** The three verdicts of modules/health_check/models.py. */
  datatype HealthLabel = Healthy | Degraded | Unhealthy

  /** `metrics.get("cpu", {}).get("usage_percent", 0)`: a missing section,
      or one that holds only `error`, reads as 0. */
  function CpuUsageOf(m: Metrics): real {
    if CpuKey in m && m[CpuKey].CpuSection? && m[CpuKey].cpu.Cpu? then m[CpuKey].cpu.usagePercent else 0.0
  }

  /** `metrics.get("memory", {}).get("percent", 0)` */
  function MemoryPercentOf(m: Metrics): real {
    if MemoryKey in m && m[MemoryKey].MemorySection? && m[MemoryKey].memory.Memory?
    then m[MemoryKey].memory.percent else 0.0
  }

  /** `metrics.get("temperature", {}).get("celsius")` */
  function CelsiusOf(m: Metrics): Option<real> {
    if TemperatureKey in m && m[TemperatureKey].TemperatureSection?
    then m[TemperatureKey].temperature.celsius else None
  }

  /** `metrics.get("voltage", {}).get("status", "N/A")` */
  function VoltageStatusOf(m: Metrics): string {
    if VoltageKey in m && m[VoltageKey].VoltageSection? && m[VoltageKey].voltage.status.Some?
    then StatusText(m[VoltageKey].voltage.status.value) else "N/A"
  }

  /** `temp and temp > 80`: `None` and `0.0` are falsy and skip the test. */
  predicate TooHot(t: Option<real>) {
    t.Some? && t.value != 0.0 && t.value > 80.0
  }

  /** `_assess_health`: degraded on a voltage warning, then on a high
      temperature, then on CPU or memory above 95 percent; healthy
      otherwise. `Unhealthy` is never returned. */
  function AssessHealth(m: Metrics): (h: HealthLabel)
    ensures h != Unhealthy
    ensures h == Degraded <==>
      VoltageStatusOf(m) == "WARNING" || TooHot(CelsiusOf(m)) || CpuUsageOf(m) > 95.0 || MemoryPercentOf(m) > 95.0
  {
    if VoltageStatusOf(m) == "WARNING" then Degraded
    else if TooHot(CelsiusOf(m)) then Degraded
    else if CpuUsageOf(m) > 95.0 || MemoryPercentOf(m) > 95.0 then Degraded
    else Healthy
  }

  /** The truthiness test adds nothing to the comparison: a reading is too
      hot exactly when it is present and above 80. */
  lemma TooHotIsAbove80(t: Option<real>)
    ensures TooHot(t) <==> t.Some? && t.value > 80.0
  {
  }

  /** With every section missing the defaults (0, 0, `None`, "N/A") apply
      and the verdict is healthy. */
  lemma MissingSectionsAreHealthy()
    ensures AssessHealth(map[]) == Healthy
  {
    assert VoltageStatusOf(map[]) == "N/A";
  }

  /** A voltage warning degrades health whatever the other sections say. */
  lemma VoltageWarningDegrades(m: Metrics, v: VoltageInfo)
    requires v.status == Some(Warning)
    ensures AssessHealth(m[VoltageKey := VoltageSection(v)]) == Degraded
  {
  }

  /** The thresholds are strict: exactly 80 degrees and exactly 95 percent
      CPU and memory leave a snapshot without a voltage warning healthy. */
  lemma ThresholdsAreStrict(m: Metrics)
    requires VoltageStatusOf(m) != "WARNING"
    requires CelsiusOf(m) == Some(80.0) && CpuUsageOf(m) == 95.0 && MemoryPercentOf(m) == 95.0
    ensures AssessHealth(m) == Healthy
  {
  }

  /** The voltage rule reads the `status` of the voltage section. */
  lemma VoltageRuleReadsStatus(m: Metrics, v: VoltageInfo)
    requires VoltageKey in m && m[VoltageKey] == VoltageSection(v)
    ensures VoltageStatusOf(m) == "WARNING" <==> v.status == Some(Warning)
  {
    if v.status.Some? {
      assert StatusText(v.status.value) == "WARNING" <==> v.status.value == Warning;
    }
  }

  /** On a snapshot of the stateless service, the voltage rule fires exactly
      when `get_throttled` reported a non-zero word. */
  lemma ThrottleWordDegrades(h: HostReadings, cpu: AppMetrics.CpuReadings, conv: Conversions)
    ensures VoltageStatusOf(AppMetrics.GetAllMetrics(h, cpu, conv)) == "WARNING" <==>
      h.getThrottled.Completed? && h.getThrottled.returnCode == 0
      && ThrottledValue(Strip(h.getThrottled.stdout)).Some?
      && ThrottledValue(Strip(h.getThrottled.stdout)).value != 0
  {
    var m := AppMetrics.GetAllMetrics(h, cpu, conv);
    var v := ThrottleStatus(h.getThrottled);
    assert m[VoltageKey] == VoltageSection(v);
    VoltageRuleReadsStatus(m, v);
  }

  /** A value of the dict `get_health_status` returns. */
  datatype Entry = Metric(section: Section) | HealthStatusEntry(verdict: HealthLabel)

  const HealthStatusKey := "health_status"

  /** `{**metrics, "health_status": verdict}` */
  function WithHealthStatus(m: Metrics): (r: map<string, Entry>)
    ensures r.Keys == m.Keys + {HealthStatusKey}
    ensures forall k :: k in m && k != HealthStatusKey ==> r[k] == Metric(m[k])
    ensures r[HealthStatusKey] == HealthStatusEntry(AssessHealth(m))
  {
    (map k | k in m :: Metric(m[k]))[HealthStatusKey := HealthStatusEntry(AssessHealth(m))]
  }

  /** `get_health_status`: the stateless service's snapshot, every key
      unchanged, plus exactly one added key holding the verdict. */
  function GetHealthStatus(h: HostReadings, cpu: AppMetrics.CpuReadings, conv: Conversions)
    : (r: map<string, Entry>)
    ensures r.Keys == SharedKeys + {HealthStatusKey} && |r| == 8
    ensures forall k :: k in SharedKeys ==> r[k] == Metric(AppMetrics.GetAllMetrics(h, cpu, conv)[k])
    ensures r[HealthStatusKey] == HealthStatusEntry(AssessHealth(AppMetrics.GetAllMetrics(h, cpu, conv)))
  {
    var m := AppMetrics.GetAllMetrics(h, cpu, conv);
    HealthStatusKeyIsNew();
    assert m.Keys == SharedKeys;
    assert forall k :: k in SharedKeys ==> k in m && k != HealthStatusKey;
    WithHealthStatus(m)
  }

  lemma HealthStatusKeyIsNew()
    ensures HealthStatusKey !in SharedKeys
    ensures |SharedKeys + {HealthStatusKey}| == 8
  {
    SharedKeysDistinct();
  }
}
