/** The psutil probes of `SystemMetricsService` that only reshape what psutil
    returns: memory, network, disk, process count, and the record the CPU
    probes build. Each psutil call is a `Probe` parameter; a probe that
    raises yields the section's `{"error": str(e)}` variant. */
module Probes {
  import opened Wrappers

  /** Bytes in a megabyte and a gigabyte as the probes divide by them
      (`1024 * 1024` and `1024 ** 3`). */
  const MiB: nat := 1024 * 1024
  const GiB: nat := 1024 * 1024 * 1024

  /** `round(x, 2)` on a float; supplied by the caller, like `float()`. */
  type Round2 = real -> real

  /** `bytes / divisor` rounded as the probes do. */
  function Scaled(bytes: nat, divisor: nat, round2: Round2): real
    requires divisor > 0
  {
    round2(bytes as real / divisor as real)
  }

  /** `get_system_info`: the five `platform` strings, passed in unchanged. */
  datatype SystemInfo = SystemInfo(platform: string, platformRelease: string, platformVersion: string,
                                   architecture: string, hostname: string)

  /** `psutil.cpu_freq()` when it returns a value. */
  datatype CpuFrequency = CpuFrequency(current: real, min: real, max: real)

  /** The `cpu` section: the five keys, or `{"error": ...}`. */
  datatype CpuInfo =
    | Cpu(usagePercent: real, count: Option<nat>, frequencyMhz: Option<real>,
          frequencyMinMhz: Option<real>, frequencyMaxMhz: Option<real>)
    | CpuError(message: string)

  /** The CPU dict once usage, `cpu_count()` and `cpu_freq()` are known: the
      three frequency keys are `None` exactly when `cpu_freq()` gave nothing. */
  function CpuRecord(usage: real, count: Option<nat>, freq: Option<CpuFrequency>): (c: CpuInfo)
    ensures c.Cpu? && c.usagePercent == usage && c.count == count
    ensures freq.None? <==> c.frequencyMhz.None?
    ensures freq.None? ==> c.frequencyMinMhz.None? && c.frequencyMaxMhz.None?
    ensures freq.Some? ==> c.frequencyMhz == Some(freq.value.current)
                           && c.frequencyMinMhz == Some(freq.value.min)
                           && c.frequencyMaxMhz == Some(freq.value.max)
  {
    match freq
    case None => Cpu(usage, count, None, None, None)
    case Some(f) => Cpu(usage, count, Some(f.current), Some(f.min), Some(f.max))
  }

  /** After the usage figure is settled: `cpu_count()` then `cpu_freq()`,
      either of which may raise. */
  function CpuTail(usage: real, count: Probe<Option<nat>>, frequency: Probe<Option<CpuFrequency>>)
    : (c: CpuInfo)
    ensures c.Cpu? <==> count.Returned? && frequency.Returned?
    ensures count.Raised? ==> c == CpuError(count.message)
    ensures count.Returned? && frequency.Raised? ==> c == CpuError(frequency.message)
    ensures c.Cpu? ==> c == CpuRecord(usage, count.value, frequency.value)
  {
    match count
    case Raised(e) => CpuError(e)
    case Returned(n) =>
      match frequency
      case Raised(e) => CpuError(e)
      case Returned(f) => CpuRecord(usage, n, f)
  }

  /** `psutil.virtual_memory()`. */
  datatype MemoryUsage = MemoryUsage(total: nat, available: nat, used: nat, percent: real)

  datatype MemoryInfo =
    | Memory(totalBytes: nat, availableBytes: nat, usedBytes: nat, percent: real,
             totalMb: real, availableMb: real, usedMb: real)
    | MemoryError(message: string)

  /** `get_memory_info`: the byte counts and percentage as psutil reports
      them, each count also in megabytes. */
  function MemoryProbe(p: Probe<MemoryUsage>, round2: Round2): (m: MemoryInfo)
    ensures m.Memory? <==> p.Returned?
    ensures p.Raised? ==> m.message == p.message
    ensures m.Memory? ==>
      m.totalBytes == p.value.total && m.availableBytes == p.value.available
      && m.usedBytes == p.value.used && m.percent == p.value.percent
      && m.totalMb == Scaled(p.value.total, MiB, round2)
      && m.availableMb == Scaled(p.value.available, MiB, round2)
      && m.usedMb == Scaled(p.value.used, MiB, round2)
  {
    match p
    case Raised(e) => MemoryError(e)
    case Returned(u) =>
      Memory(u.total, u.available, u.used, u.percent,
             Scaled(u.total, MiB, round2), Scaled(u.available, MiB, round2), Scaled(u.used, MiB, round2))
  }

  /** `psutil.net_io_counters()`. */
  datatype NetCounters = NetCounters(bytesSent: nat, bytesRecv: nat, packetsSent: nat, packetsRecv: nat,
                                     errin: nat, errout: nat, dropin: nat, dropout: nat)

  datatype NetworkInfo =
    | Network(counters: NetCounters, mbpsSent: real, mbpsRecv: real)
    | NetworkError(message: string)

  /** `get_network_stats`: the eight counters unchanged, and the two byte
      totals in megabytes (named `mbps_*` in the source). */
  function NetworkProbe(p: Probe<NetCounters>, round2: Round2): (n: NetworkInfo)
    ensures n.Network? <==> p.Returned?
    ensures p.Raised? ==> n.message == p.message
    ensures n.Network? ==> n.counters == p.value
                           && n.mbpsSent == Scaled(p.value.bytesSent, MiB, round2)
                           && n.mbpsRecv == Scaled(p.value.bytesRecv, MiB, round2)
  {
    match p
    case Raised(e) => NetworkError(e)
    case Returned(c) => Network(c, Scaled(c.bytesSent, MiB, round2), Scaled(c.bytesRecv, MiB, round2))
  }

  /** `psutil.disk_usage('/')`. */
  datatype DiskUsage = DiskUsage(total: nat, used: nat, free: nat, percent: real)

  /** `psutil.disk_io_counters()` when it returns a value. */
  datatype DiskIo = DiskIo(readBytes: nat, writeBytes: nat, readCount: nat, writeCount: nat)

  datatype DiskRoot = DiskRoot(totalBytes: nat, usedBytes: nat, freeBytes: nat, percent: real,
                               totalGb: real, usedGb: real, freeGb: real)

  /** The `disk` section: `root`, plus `io` only when the counters exist. */
  datatype DiskInfo =
    | Disk(root: DiskRoot, io: Option<DiskIo>)
    | DiskError(message: string)

  function RootOf(u: DiskUsage, round2: Round2): DiskRoot {
    DiskRoot(u.total, u.used, u.free, u.percent,
             Scaled(u.total, GiB, round2), Scaled(u.used, GiB, round2), Scaled(u.free, GiB, round2))
  }

  /** `get_disk_info`: `disk_usage` is called first, so its error wins; the
      `io` key is added only when `disk_io_counters()` returned counters. */
  function DiskProbe(usage: Probe<DiskUsage>, io: Probe<Option<DiskIo>>, round2: Round2): (d: DiskInfo)
    ensures d.Disk? <==> usage.Returned? && io.Returned?
    ensures usage.Raised? ==> d == DiskError(usage.message)
    ensures usage.Returned? && io.Raised? ==> d == DiskError(io.message)
    ensures d.Disk? ==> d.root == RootOf(usage.value, round2) && d.io == io.value
  {
    match usage
    case Raised(e) => DiskError(e)
    case Returned(u) =>
      match io
      case Raised(e) => DiskError(e)
      case Returned(counters) => Disk(RootOf(u, round2), counters)
  }

  /** The `process_count` section: `{count, available: True}` or
      `{error, available: False}`. */
  datatype ProcessCount = ProcessCount(count: nat) | ProcessCountError(message: string)
  {
    predicate Available() { ProcessCount? }
  }

  /** `get_process_count`: the number of pids `psutil.pids()` lists. */
  function ProcessCountProbe(pids: Probe<seq<nat>>): (p: ProcessCount)
    ensures p.Available() <==> pids.Returned?
    ensures p.Available() ==> p.count == |pids.value|
    ensures !p.Available() ==> p.message == pids.message
  {
    match pids
    case Raised(e) => ProcessCountError(e)
    case Returned(ps) => ProcessCount(|ps|)
  }

  /** The disk section never holds an `io` of its own making: when the
      counters are missing the key is absent, and when they exist they are
      copied unchanged. */
  lemma DiskIoPresence(u: DiskUsage, io: Option<DiskIo>, round2: Round2)
    ensures DiskProbe(Returned(u), Returned(io), round2).Disk?
    ensures DiskProbe(Returned(u), Returned(io), round2).io.Some? <==> io.Some?
    ensures io.Some? ==> DiskProbe(Returned(u), Returned(io), round2).io == Some(io.value)
  {
  }
}
