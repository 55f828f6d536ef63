/** `SystemMetricsService` of baja_testbench/services/system_metrics.py: the
    only stateful probe set. The class attributes `_cpu_percent_initialized`
    and `_last_cpu_percent` cache the CPU load across calls; the functions
    below say what one call does to them, and the class performs the same
    steps in place. */
module BajaMetrics {
  import opened Wrappers
  import opened Probes
  import opened Temperature
  import opened Throttle
  import opened Snapshot

  /** The two class attributes. */
  datatype SamplerState = SamplerState(initialized: bool, lastPercent: real)

  /** Their values when the class body has run (`False`, `0.0`). */
  const StartState := SamplerState(false, 0.0)

  /** The psutil calls one `get_cpu_info` may make, in order: the warm-up
      `cpu_percent(interval=0.1)` of `_initialize_cpu_percent`, the
      non-blocking `cpu_percent(interval=None)`, the second blocking
      `cpu_percent(interval=0.1)`, `cpu_count()` and `cpu_freq()`. A call the
      path does not reach is never consulted. */
  datatype CpuReadings = CpuReadings(warmUp: Probe<real>, nonBlocking: Probe<real>, blocking: Probe<real>,
                                     count: Probe<Option<nat>>, frequency: Probe<Option<CpuFrequency>>)

  /** What `get_cpu_info` returns, and the cache after it. */
  datatype Sampled = Sampled(info: CpuInfo, state: SamplerState)

  /** `_initialize_cpu_percent`: one blocking read when not yet initialized;
      a read that raises is swallowed and changes nothing. */
  function Initialize(s: SamplerState, warmUp: Probe<real>): (t: SamplerState)
    ensures t.initialized <==> s.initialized || warmUp.Returned?
    ensures s.initialized || warmUp.Raised? ==> t == s
    ensures !s.initialized && warmUp.Returned? ==> t.lastPercent == warmUp.value
  {
    if s.initialized then s
    else
      match warmUp
      case Raised(_) => s
      case Returned(p) => SamplerState(true, p)
  }

  /** The usage figure chosen so far, and the cache. */
  datatype Usage = Usage(percent: real, state: SamplerState)

  /** The cache rule applied to a non-blocking reading `p`: a zero reading
      is replaced by a positive cached value, and a positive reading is
      stored. */
  function UseCache(s: SamplerState, p: real): (u: Usage)
    ensures u.state.initialized == s.initialized
    ensures p == 0.0 && s.lastPercent > 0.0 ==> u == Usage(s.lastPercent, s)
    ensures p > 0.0 ==> u == Usage(p, s.(lastPercent := p))
    ensures p < 0.0 || (p == 0.0 && s.lastPercent <= 0.0) ==> u == Usage(p, s)
  {
    if p == 0.0 && s.lastPercent > 0.0 then Usage(s.lastPercent, s)
    else if p > 0.0 then Usage(p, s.(lastPercent := p))
    else Usage(p, s)
  }

  /** The call reaches the second, blocking `cpu_percent(interval=0.1)`: the
      non-blocking read returned 0.0, no positive load was cached, and the
      cache is still uninitialized after the warm-up. */
  predicate Reached(s: SamplerState, r: CpuReadings) {
    var s1 := Initialize(s, r.warmUp);
    r.nonBlocking == Returned(0.0) && s1.lastPercent <= 0.0 && !s1.initialized
  }

  /** One `get_cpu_info` call on cache `s`. The cache updates made before a
      psutil call raises are kept, as they are on the class. A record comes
      back exactly when every call the path reaches returns. */
  function Sample(s: SamplerState, r: CpuReadings): (out: Sampled)
    ensures s.initialized ==> out.state.initialized
    ensures r.nonBlocking.Raised? ==> out == Sampled(CpuError(r.nonBlocking.message), Initialize(s, r.warmUp))
    ensures out.info.Cpu? <==>
      && r.nonBlocking.Returned?
      && (Reached(s, r) ==> r.blocking.Returned?)
      && r.count.Returned? && r.frequency.Returned?
  {
    var s1 := Initialize(s, r.warmUp);
    match r.nonBlocking
    case Raised(e) => Sampled(CpuError(e), s1)
    case Returned(p) =>
      var u := UseCache(s1, p);
      if u.percent == 0.0 && !u.state.initialized then
        (match r.blocking
         case Raised(e) => Sampled(CpuError(e), u.state)
         case Returned(b) => Sampled(CpuTail(b, r.count, r.frequency), SamplerState(true, b)))
      else Sampled(CpuTail(u.percent, r.count, r.frequency), u.state)
  }

  /** The cache after each of a sequence of `get_cpu_info` calls. */
  function Run(s: SamplerState, rs: seq<CpuReadings>): SamplerState
    decreases |rs|
  {
    if rs == [] then s else Run(Sample(s, rs[0]).state, rs[1..])
  }

  /** What one `get_all_metrics` call returns, and the cache after it. */
  datatype Collected = Collected(metrics: Metrics, state: SamplerState)

  /** The eight keys of this service's snapshot. */
  const BajaKeys: set<string> := SharedKeys + {ProcessCountKey}

  /** `get_all_metrics`: the initialiser runs first (with its own warm-up
      read), then the sections are built in key order, only `cpu` touching
      the cache. */
  function AllMetrics(s: SamplerState, h: HostReadings, warmUp: Probe<real>, cpu: CpuReadings,
                      conv: Conversions): (out: Collected)
    ensures out.metrics.Keys == BajaKeys
    ensures out.metrics[CpuKey] == CpuSection(Sample(Initialize(s, warmUp), cpu).info)
    ensures out.state == Sample(Initialize(s, warmUp), cpu).state
    ensures out.metrics[ProcessCountKey] == ProcessCountSection(ProcessCountProbe(h.pids))
    ensures out.metrics[SystemKey] == SystemSection(h.platform)
    ensures out.metrics[MemoryKey] == MemorySection(MemoryProbe(h.memory, conv.round2))
    ensures out.metrics[TemperatureKey] ==
      TemperatureSection(CpuTemperature(h.measureTemp, h.sensors, conv.parseFloat, conv.render, BajaUnit))
    ensures out.metrics[VoltageKey] == VoltageSection(ThrottleStatus(h.getThrottled))
    ensures out.metrics[NetworkKey] == NetworkSection(NetworkProbe(h.network, conv.round2))
    ensures out.metrics[DiskKey] == DiskSection(DiskProbe(h.diskUsage, h.diskIo, conv.round2))
  {
    var sampled := Sample(Initialize(s, warmUp), cpu);
    var shared := SharedSections(h, sampled.info, BajaUnit, conv);
    SharedKeysDistinct();
    Collected(shared[ProcessCountKey := ProcessCountSection(ProcessCountProbe(h.pids))], sampled.state)
  }

  /** Readings psutil can give: a load is never negative. */
  predicate NonNegative(p: Probe<real>) {
    p.Returned? ==> p.value >= 0.0
  }

  predicate NonNegativeReadings(r: CpuReadings) {
    NonNegative(r.warmUp) && NonNegative(r.nonBlocking) && NonNegative(r.blocking)
  }

  /** A load within `CPUInfo`'s bounds. */
  predicate InPercentRange(p: Probe<real>) {
    p.Returned? ==> 0.0 <= p.value <= 100.0
  }

  predicate PercentReadings(r: CpuReadings) {
    InPercentRange(r.warmUp) && InPercentRange(r.nonBlocking) && InPercentRange(r.blocking)
  }

  /** Once initialized, the initialiser changes nothing, whatever it would
      read: after a call that succeeded, calling it again is a no-op. */
  lemma InitializeIdempotent(s: SamplerState, first: Probe<real>, second: Probe<real>)
    requires Initialize(s, first).initialized
    ensures Initialize(Initialize(s, first), second) == Initialize(s, first)
  {
  }

  /** A zero non-blocking read while a positive load is cached returns the
      cached load and leaves the cache as the initialiser left it. */
  lemma ZeroReadUsesCache(s: SamplerState, r: CpuReadings)
    requires r.nonBlocking == Returned(0.0)
    requires Initialize(s, r.warmUp).lastPercent > 0.0
    requires r.count.Returned? && r.frequency.Returned?
    ensures Sample(s, r).state == Initialize(s, r.warmUp)
    ensures Sample(s, r).info == CpuRecord(Initialize(s, r.warmUp).lastPercent, r.count.value, r.frequency.value)
  {
  }

  /** A positive non-blocking read is stored and returned. */
  lemma PositiveReadIsStored(s: SamplerState, r: CpuReadings, p: real)
    requires r.nonBlocking == Returned(p) && p > 0.0
    requires r.count.Returned? && r.frequency.Returned?
    ensures Sample(s, r).state == Initialize(s, r.warmUp).(lastPercent := p)
    ensures Sample(s, r).info == CpuRecord(p, r.count.value, r.frequency.value)
  {
  }

  /** A zero read with nothing cached while still uninitialized falls back to
      a blocking read, which is stored and marks the cache initialized. */
  lemma ZeroReadUninitializedBlocks(s: SamplerState, r: CpuReadings, b: real)
    requires r.nonBlocking == Returned(0.0) && r.blocking == Returned(b)
    requires !Initialize(s, r.warmUp).initialized && Initialize(s, r.warmUp).lastPercent <= 0.0
    requires r.count.Returned? && r.frequency.Returned?
    ensures Sample(s, r).state == SamplerState(true, b)
    ensures Sample(s, r).info == CpuRecord(b, r.count.value, r.frequency.value)
  {
  }

  /** With non-negative readings and cache, the load returned is the load
      cached afterwards. */
  lemma UsageIsCached(s: SamplerState, r: CpuReadings)
    requires s.lastPercent >= 0.0 && NonNegativeReadings(r)
    ensures Sample(s, r).info.Cpu? ==> Sample(s, r).info.usagePercent == Sample(s, r).state.lastPercent
  {
  }

  /** A failure of `cpu_count()` or `cpu_freq()` does not undo the cache
      update that preceded it. */
  lemma TailFailureKeepsCache(s: SamplerState, r: CpuReadings, count: Probe<Option<nat>>,
                              frequency: Probe<Option<CpuFrequency>>)
    ensures Sample(s, r).state == Sample(s, r.(count := count, frequency := frequency)).state
  {
  }

  /** Once the cache is initialized no blocking read is taken: the call does
      not depend on what that read would return. */
  lemma InitializedNeverBlocks(s: SamplerState, r: CpuReadings, blocking: Probe<real>)
    requires s.initialized
    ensures Sample(s, r) == Sample(s, r.(blocking := blocking, warmUp := blocking))
  {
  }

  /** The load returned and cached stays within `CPUInfo`'s bounds when
      psutil's readings do. */
  lemma SampleWithinRange(s: SamplerState, r: CpuReadings)
    requires 0.0 <= s.lastPercent <= 100.0 && PercentReadings(r)
    ensures 0.0 <= Sample(s, r).state.lastPercent <= 100.0
    ensures Sample(s, r).info.Cpu? ==> 0.0 <= Sample(s, r).info.usagePercent <= 100.0
  {
  }

  /** Across any number of calls the cache stays within bounds, and once
      initialized it stays initialized. */
  lemma {:induction false} RunWithinRange(s: SamplerState, rs: seq<CpuReadings>)
    requires 0.0 <= s.lastPercent <= 100.0
    requires forall i :: 0 <= i < |rs| ==> PercentReadings(rs[i])
    ensures 0.0 <= Run(s, rs).lastPercent <= 100.0
    ensures s.initialized ==> Run(s, rs).initialized
    decreases |rs|
  {
    if rs != [] {
      SampleWithinRange(s, rs[0]);
      RunWithinRange(Sample(s, rs[0]).state, rs[1..]);
    }
  }

  /** `get_all_metrics` initializes first, so when its own warm-up read
      succeeds, the one inside `get_cpu_info` is never taken: neither the
      snapshot nor the cache depends on it. */
  lemma AllMetricsInitializesFirst(s: SamplerState, h: HostReadings, warmUp: Probe<real>, cpu: CpuReadings,
                                   conv: Conversions, other: Probe<real>)
    requires warmUp.Returned?
    ensures AllMetrics(s, h, warmUp, cpu, conv) == AllMetrics(s, h, warmUp, cpu.(warmUp := other), conv)
    ensures AllMetrics(s, h, warmUp, cpu, conv).state.initialized
  {
  }

  /** The class attributes and the methods that update them. One instance
      stands for the class: the attributes are shared by every caller. */
  class SystemMetricsService {
    var cpuPercentInitialized: bool
    var lastCpuPercent: real

    function State(): SamplerState
      reads this
    {
      SamplerState(cpuPercentInitialized, lastCpuPercent)
    }

    /** The attributes' initial values, then the module-level
        `_initialize_cpu_percent()` call made on import. */
    constructor(warmUp: Probe<real>)
      ensures State() == Initialize(StartState, warmUp)
    {
      cpuPercentInitialized := false;
      lastCpuPercent := 0.0;
      new;
      InitializeCpuPercent(warmUp);
    }

    method InitializeCpuPercent(warmUp: Probe<real>)
      modifies this
      ensures State() == Initialize(old(State()), warmUp)
    {
      if !cpuPercentInitialized {
        match warmUp {
          case Raised(_) =>
          case Returned(p) =>
            lastCpuPercent := p;
            cpuPercentInitialized := true;
        }
      }
    }

    method GetCpuInfo(r: CpuReadings) returns (info: CpuInfo)
      modifies this
      ensures Sampled(info, State()) == Sample(old(State()), r)
    {
      InitializeCpuPercent(r.warmUp);
      if r.nonBlocking.Raised? {
        return CpuError(r.nonBlocking.message);
      }
      var cpuPercent := r.nonBlocking.value;
      if cpuPercent == 0.0 && lastCpuPercent > 0.0 {
        cpuPercent := lastCpuPercent;
      } else if cpuPercent > 0.0 {
        lastCpuPercent := cpuPercent;
      }
      if cpuPercent == 0.0 && !cpuPercentInitialized {
        if r.blocking.Raised? {
          return CpuError(r.blocking.message);
        }
        cpuPercent := r.blocking.value;
        lastCpuPercent := cpuPercent;
        cpuPercentInitialized := true;
      }
      if r.count.Raised? {
        return CpuError(r.count.message);
      }
      if r.frequency.Raised? {
        return CpuError(r.frequency.message);
      }
      info := CpuRecord(cpuPercent, r.count.value, r.frequency.value);
    }

    method GetAllMetrics(h: HostReadings, warmUp: Probe<real>, cpu: CpuReadings, conv: Conversions)
      returns (m: Metrics)
      modifies this
      ensures Collected(m, State()) == AllMetrics(old(State()), h, warmUp, cpu, conv)
    {
      InitializeCpuPercent(warmUp);
      var info := GetCpuInfo(cpu);
      m := SharedSections(h, info, BajaUnit, conv);
      m := m[ProcessCountKey := ProcessCountSection(ProcessCountProbe(h.pids))];
    }
  }
}
