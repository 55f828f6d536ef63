# baja_testbench health metrics, modelled in Dafny

This project models the health-metrics pipeline of baja_testbench. The pipeline
has five parts:

- The two `SystemMetricsService` classes sample the host (CPU, memory,
  temperature, supply voltage, network, disk and process count) and return
  one snapshot dict per call.
  - The service in `baja_testbench/services/` keeps a class-level cache of the
    last CPU load.
  - The one in `app/services/` is stateless.
- The Pydantic records of `baja_testbench/models/health.py` decide which
  snapshots a `HealthResponse` accepts.
- `HealthCheckModule` adds a healthy/degraded verdict to a snapshot.
- `HealthMonitor` in `static/js/health.js` is the dashboard. It turns a
  snapshot into a status, labels and a voltage-issue panel, and counts
  reconnect attempts.

Everything the operating system reports enters as a parameter:

- psutil calls are `Probe<T>` values: `Raised(message)` or `Returned(value)`.
- `vcgencmd` runs are `Command` values: `Completed(returnCode, stdout)`,
  `TimedOut` or `NotFound`.
- Python's `float()`, the f-string rendering of a reading and `round(x, 2)`
  are the fields of `Conversions`.

A snapshot is a `map<string, Section>`, and every probe's error dict is a
variant of its section's datatype.

Modules:

| file | module |
|---|---|
| `wrappers.dfy` | `Option`, `Probe` and `Command` |
| `strings.dfy` | `strip()`, `split()`, `in`, `lower()` and `replace()` as the probes use them |
| `throttle.dfy` | `get_throttle_status` and the bit decoding of the `vcgencmd get_throttled` word |
| `temperature.dfy` | `get_cpu_temperature`: the tool path and the psutil sensor fallback |
| `probes.dfy` | the memory, network, disk, system and process-count probes, and the CPU record |
| `snapshot.dfy` | the snapshot and the seven sections both services build alike |
| `baja_metrics.dfy` | the stateful service: the CPU cache as functions, and the class that updates it in place |
| `app_metrics.dfy` | the stateless service |
| `health_schema.dfy` | `HealthResponse` validation |
| `health_check.dfy` | `HealthCheckModule` |
| `dashboard.dfy` | `HealthMonitor` |

The stateful service appears twice in `baja_metrics.dfy`:

- The functions `Initialize`, `Sample` and `AllMetrics` give what one call
  returns and the cache it leaves behind.
- The class `SystemMetricsService` holds the two cache attributes as fields.
  Its methods perform the source's steps in place, and each method is proved
  equal to the matching function.

The two services differ in their degree sign:

- The stateful service's temperature fallback appends `°C`.
- The stateless service's fallback appends `Â°C`, which is the text its source
  file holds (a UTF-8 `°` read as Latin-1).

The model keeps both, so the two services differ in that text.

## Model

| member | source | states |
|---|---|---|
| Strings.Strip | baja_testbench/services/system_metrics.py:79 | `strip()` leaves no whitespace at either end and leaves an already stripped string unchanged |
| Strings.StripIsSlice | baja_testbench/services/system_metrics.py:79 | `strip()` returns the slice of the string between its leading and its trailing whitespace: everything cut away before and after it is whitespace |
| Strings.JoinSplit | baja_testbench/services/system_metrics.py:82 | `split("=")` loses nothing: joining the pieces with `=` gives back the string |
| Strings.Split | baja_testbench/services/system_metrics.py:82 | there are at least two pieces exactly when the separator occurs, and no piece contains it |
| Strings.SecondField | baja_testbench/services/system_metrics.py:81-82 | `split("=")[1]` exists exactly when `"=" in output`, and it contains no `=` |
| Strings.SecondFieldBetween | baja_testbench/services/system_metrics.py:82 | the second field is the text between the first and the second separator |
| Strings.Contains | baja_testbench/services/system_metrics.py:56 | `sub in s` holds exactly when `sub` occurs at some position of `s` |
| Strings.Lower | baja_testbench/services/system_metrics.py:56 | `lower()` keeps the length, turns each capital A-Z into its small letter, keeps every other character, and leaves no capital |
| Strings.RemoveAll | baja_testbench/services/system_metrics.py:41 | `replace(pat, "")` never makes the text longer |
| Strings.RemoveAllSubMultiset | baja_testbench/services/system_metrics.py:41 | `replace(pat, "")` only removes characters: the result's characters are a sub-multiset of the text's |
| Strings.RemoveAllKeepsOthers | baja_testbench/services/system_metrics.py:41 | a character not in the pattern occurs as often after `replace(pat, "")` as before |
| Strings.RemoveAllTrailing | baja_testbench/services/system_metrics.py:41 | `replace("'C", "")` removes a trailing `'C` and keeps a text without `'` unchanged |
| Throttle.ParseHex | baja_testbench/services/system_metrics.py:84 | `int(s, 16)` succeeds exactly when the text, after an optional `0x` or `0X`, is a non-empty run of hex digits |
| Throttle.ParseHexToHex | baja_testbench/services/system_metrics.py:84 | reading back a `0x` numeral gives the number that was written |
| Throttle.DigitsValueToHex | baja_testbench/services/system_metrics.py:84 | the hex digits of `n` have the value `n` |
| Throttle.AndSingleBit | baja_testbench/services/system_metrics.py:87-94 | `bool(n & 2^k)` is bit `k` of `n` |
| Throttle.FlagsAreBits | baja_testbench/services/system_metrics.py:86-95 | the eight flags are exactly bits 0-3 and 16-19 of the word, in the source's key order |
| Throttle.DecodeFlags | baja_testbench/services/system_metrics.py:86-95 | the `flags` dict: each of the eight entries is `bool(n & mask)` for the source's mask, in its key order. `FlagsAreBits` states which bit each one is |
| Throttle.ThrottledValue | baja_testbench/services/system_metrics.py:81-84 | `int(output.split("=")[1], 16)` yields a value exactly when the output contains `=` and the text after it is accepted by `int(s, 16)`, and the value is that text read as hex. It is absent on the IndexError and ValueError paths |
| Throttle.OtherBitsIgnored | baja_testbench/services/system_metrics.py:86-95 | setting any other bit changes no flag |
| Throttle.SplitWordFlags | baja_testbench/services/system_metrics.py:86-95 | for a word `a * 0x10000 + b` with `a` and `b` below 16, the current flags are the bits of `b` and the latched flags are the bits of `a` |
| Throttle.ThrottleStatus | baja_testbench/services/system_metrics.py:68-109 | the result is available exactly when the tool exits 0; otherwise it is the `N/A` dict. When available, `raw` is the stripped output, and `status` is present exactly when the value after `=` parses. A parsed value gives `hex_value`, the decoded flags and `OK` exactly when the value is 0 (`WARNING` otherwise). Unparsed output gives only `raw` and `available`. The stateless service runs the same code (app/services/system_metrics.py, lines 56-97) |
| Throttle.ToolLineDecodes | baja_testbench/services/system_metrics.py:78-102 | for the tool's line `throttled=<h>` plus a newline, where `<h>` parses to `n`: `raw` is the line without the newline, `hex_value` is `<h>`, the flags are those of `n`, and the status is OK exactly when `n` is 0 |
| Throttle.ThrottleStatusDecodes | baja_testbench/services/system_metrics.py:78-102 | the line the tool prints for any value `n` decodes back to `n` |
| Throttle.UndecodedBitsWarn | baja_testbench/services/system_metrics.py:100 | `0x100` sets no flag but is still a WARNING |
| Throttle.Example0x50005 | baja_testbench/services/system_metrics.py:86-100 | `0x50005` reports current under-voltage and throttling and both past flags, with status WARNING |
| Throttle.Example0x0 | baja_testbench/services/system_metrics.py:86-100 | `0x0` sets no flag and has status OK |
| Throttle.NoEqualsLacksStatus | baja_testbench/services/system_metrics.py:81-105 | output without `=` gives `{raw, available: True}` and nothing else |
| Temperature.FirstUsableGroup | baja_testbench/services/system_metrics.py:55-57 | the fallback takes the first group, in iteration order, whose name contains `cpu` or `core` and that has readings; no such group means no reading |
| Temperature.MeasureTempText | baja_testbench/services/system_metrics.py:41 | a text is handed to `float()` exactly when the stripped output contains `=`; otherwise it is the IndexError path |
| Temperature.MeasureTemp | baja_testbench/services/system_metrics.py:32-47 | the tool path yields a reading exactly when the tool exits 0, the output has `=` and `float()` accepts the text. The reading's `raw` is the stripped output, and its `celsius` is the parsed value |
| Temperature.SensorFallback | baja_testbench/services/system_metrics.py:50-64 | the fallback yields the first reading of the first usable group, rendered with the unit; it yields nothing when `sensors_temperatures()` raises or no group is usable |
| Temperature.CpuTemperature | baja_testbench/services/system_metrics.py:29-66 | the tool reading wins, then the sensor fallback, then `N/A`. In every case `available` holds exactly when `celsius` is present. The stateless service runs the same code with the unit `Â°C` (app/services/system_metrics.py, lines 16-54) |
| Temperature.MeasureTempTextOfToolLine | app/services/system_metrics.py:27-29 | the tool's line `temp=<digits>'C` hands exactly `<digits>` to `float()` |
| Temperature.ToolLineReading | baja_testbench/services/system_metrics.py:39-46 | a `temp=<digits>'C` reading is reported with `raw` equal to the line and `celsius` equal to `float(digits)`, whatever the sensors say |
| Temperature.NoEqualsFallsBack | app/services/system_metrics.py:26-54 | output without `=` is not an error: the result is the sensor fallback's |
| Temperature.EmptyGroupIsSkipped | baja_testbench/services/system_metrics.py:55-62 | a CPU group with no readings is skipped, and the next CPU group supplies the reading |
| Probes.CpuRecord | baja_testbench/services/system_metrics.py:134-140 | the CPU dict carries the usage and the count; all three frequencies are present exactly when `cpu_freq()` gave a value |
| Probes.CpuTail | baja_testbench/services/system_metrics.py:131-142 | `cpu_count()` is called before `cpu_freq()`: the first one that raises gives `{"error": str(e)}`, otherwise the record |
| Probes.MemoryProbe | baja_testbench/services/system_metrics.py:144-159 | the memory dict exists exactly when `virtual_memory()` returned; it holds the byte counts and percentage unchanged and the rounded MB figures. Otherwise it holds the error message |
| Probes.NetworkProbe | baja_testbench/services/system_metrics.py:161-179 | the network dict exists exactly when `net_io_counters()` returned; it holds the eight counters unchanged. Otherwise it holds the error message |
| Probes.DiskProbe | baja_testbench/services/system_metrics.py:181-210 | `disk_usage('/')` is called first, so its error wins. The result is the root figures plus an `io` exactly when `disk_io_counters()` gave counters |
| Probes.DiskIoPresence | baja_testbench/services/system_metrics.py:200-206 | `io` is present exactly when the counters are, and it holds them |
| Probes.ProcessCountProbe | baja_testbench/services/system_metrics.py:223-233 | the section is available exactly when `pids()` returned; its count is the number of pids. Otherwise it holds the error message |
| Snapshot.SharedSections | baja_testbench/services/system_metrics.py:241-248 | the seven shared keys, each holding the matching probe's result |
| Snapshot.SharedKeysDistinct | app/services/system_metrics.py:196-207 | the seven keys are distinct, and `process_count` is not among them |
| BajaMetrics.Initialize | baja_testbench/services/system_metrics.py:20-27 | `_initialize_cpu_percent` initializes exactly when not yet initialized and the warm-up read returns, and it stores that read. Otherwise nothing changes |
| BajaMetrics.InitializeIdempotent | baja_testbench/services/system_metrics.py:20-27 | after an initializing call, a second call is a no-op |
| BajaMetrics.UseCache | baja_testbench/services/system_metrics.py:121-124 | a zero reading is replaced by a positive cached load; a positive reading is returned and stored; any other reading leaves the cache alone |
| BajaMetrics.Reached | baja_testbench/services/system_metrics.py:121-126 | the blocking read is taken exactly when the non-blocking read gave 0.0, no positive load is cached, and the cache is still uninitialized after the warm-up |
| BajaMetrics.Sample | baja_testbench/services/system_metrics.py:111-142 | one `get_cpu_info` call. It never clears `initialized`. If the non-blocking read raises, the result is its error and the cache is the one after initialization. The result is the CPU record exactly when the non-blocking read, `cpu_count()` and `cpu_freq()` return and, on the path that reaches it (`Reached`), the blocking read returns |
| BajaMetrics.ZeroReadUsesCache | baja_testbench/services/system_metrics.py:121-122 | a zero reading with a positive cached load reports the cached load and leaves the cache as initialization left it |
| BajaMetrics.PositiveReadIsStored | baja_testbench/services/system_metrics.py:123-124 | a positive reading is reported and becomes the cached load |
| BajaMetrics.ZeroReadUninitializedBlocks | baja_testbench/services/system_metrics.py:126-129 | a zero reading while uninitialized, with no positive cache, falls back to the blocking read. That read is reported, cached, and marks the cache initialized |
| BajaMetrics.UsageIsCached | baja_testbench/services/system_metrics.py:119-129 | with non-negative readings, the usage reported is the load left in the cache |
| BajaMetrics.TailFailureKeepsCache | baja_testbench/services/system_metrics.py:131-142 | a `cpu_count()` or `cpu_freq()` failure does not undo the cache updates already made |
| BajaMetrics.InitializedNeverBlocks | baja_testbench/services/system_metrics.py:126 | once initialized, neither the warm-up read nor the blocking read is consulted |
| BajaMetrics.SampleWithinRange | baja_testbench/services/system_metrics.py:119-129 | with loads in [0, 100], both the cache and the reported usage stay in [0, 100] |
| BajaMetrics.Run | baja_testbench/services/system_metrics.py:16-18 | the class attributes after a sequence of `get_cpu_info` calls, each starting from the cache the previous one left |
| BajaMetrics.RunWithinRange | baja_testbench/services/system_metrics.py:16-18 | over any sequence of calls, the cached load stays in [0, 100], and `initialized` is never cleared |
| BajaMetrics.AllMetrics | baja_testbench/services/system_metrics.py:235-250 | the eight keys. The cache is what initialization followed by one CPU sample leaves, and `cpu` is that sample. Every other key holds its probe's result, and the temperature uses the unit `°C` |
| BajaMetrics.AllMetricsInitializesFirst | baja_testbench/services/system_metrics.py:239 | when `get_all_metrics`'s own warm-up read returns, the service is initialized afterwards, and neither the snapshot (its `cpu` section included) nor the cache depends on the warm-up inside `get_cpu_info` |
| BajaMetrics.SystemMetricsService.constructor | baja_testbench/services/system_metrics.py:253 | the import-time `_initialize_cpu_percent()` leaves the cache in state `Initialize(StartState, warmUp)` |
| BajaMetrics.SystemMetricsService.InitializeCpuPercent | baja_testbench/services/system_metrics.py:20-27 | the attributes are updated in place to `Initialize` of their old values |
| BajaMetrics.SystemMetricsService.GetCpuInfo | baja_testbench/services/system_metrics.py:111-142 | the in-place steps return and leave exactly what `Sample` gives for the old attributes |
| BajaMetrics.SystemMetricsService.GetAllMetrics | baja_testbench/services/system_metrics.py:235-250 | the in-place steps return and leave exactly what `AllMetrics` gives for the old attributes |
| AppMetrics.GetCpuInfo | app/services/system_metrics.py:99-115 | the usage is the one blocking read; the first call that raises gives its error |
| AppMetrics.GetAllMetrics | app/services/system_metrics.py:196-207 | exactly seven keys, with no `process_count`. Each key holds its probe's result, and the temperature uses the unit `Â°C` |
| AppMetrics.IgnoresProcessList | app/services/system_metrics.py:196-207 | the snapshot does not depend on `psutil.pids()` |
| AppMetrics.ServicesAgree | app/services/system_metrics.py:117-194 | the two services' system, memory, voltage, network and disk sections are equal, and their temperatures agree on `celsius` and `available` |
| AppMetrics.ParseFailureLacksStatus | app/services/system_metrics.py:91-93 | output whose value does not parse gives `{raw, available: True}` without `status` |
| HealthSchema.IsPercent | baja_testbench/models/health.py:20 | `Field(..., ge=0, le=100)`: a value in [0, 100] |
| HealthSchema.ValidCpu | baja_testbench/models/health.py:18-24 | `CPUInfo` accepts the success record with `usage_percent` in [0, 100] and an integer `count`; the frequencies may be `None` |
| HealthSchema.ValidMemory | baja_testbench/models/health.py:27-35 | `MemoryInfo` accepts the success record with `percent` in [0, 100] |
| HealthSchema.ValidVoltage | baja_testbench/models/health.py:45-51 | `VoltageInfo` accepts a dict that has `status`; `hex_value` and `flags` are optional |
| HealthSchema.ValidNetwork | baja_testbench/models/health.py:54-65 | `NetworkInfo` accepts the success record with all ten fields |
| HealthSchema.ValidDisk | baja_testbench/models/health.py:68-90 | `DiskInfo` accepts a `root` whose `percent` lies in [0, 100]; `io` is optional |
| HealthSchema.ValidHealthResponse | baja_testbench/models/health.py:93-101 | `HealthResponse` accepts a snapshot whose seven declared keys each hold a record of the right kind that its model accepts |
| HealthSchema.VoltageValidUnlessUnparsed | baja_testbench/models/health.py:45-51 | the throttle result passes `VoltageInfo` exactly when it is not the unparsed shape, which lacks the required `status` |
| HealthSchema.TemperatureNeverInvalidates | baja_testbench/models/health.py:38-42 | every temperature result fits `TemperatureInfo`, so that section never decides validity |
| HealthSchema.UndeclaredKeysIgnored | baja_testbench/models/health.py:93-101 | adding a key the record does not declare changes nothing |
| HealthSchema.UndeclaredKeyRemoved | baja_testbench/models/health.py:93-101 | removing such a key changes nothing |
| HealthSchema.FrequencyOptional | baja_testbench/models/health.py:18-24 | a CPU record without frequencies is accepted when usage is in [0, 100] and the count is present |
| HealthSchema.AppResponseValidIff | baja_testbench/models/health.py:93-101 | the stateless snapshot passes `HealthResponse` exactly when each psutil call returned, the usage, memory and disk percentages are in [0, 100], `cpu_count()` gave a number, and the throttle output was not left unparsed |
| HealthSchema.SampledCpuValid | baja_testbench/models/health.py:18-24 | the stateful CPU section fits `CPUInfo` when the cache and the readings are in range, `cpu_count()` gives a number, and every call the sample reaches returns (the blocking read only when `Reached`) |
| HealthSchema.BajaExtraKeyIgnored | baja_testbench/models/health.py:93-101 | `process_count` does not affect whether the stateful snapshot validates |
| HealthCheck.CpuUsageOf | modules/health_check/service.py:40 | `metrics.get("cpu", {}).get("usage_percent", 0)`: the usage of a CPU record, and 0 when the section is missing or holds only `error` |
| HealthCheck.MemoryPercentOf | modules/health_check/service.py:41 | `metrics.get("memory", {}).get("percent", 0)`: the percentage of a memory record, and 0 otherwise |
| HealthCheck.CelsiusOf | modules/health_check/service.py:42 | `metrics.get("temperature", {}).get("celsius")`: the reading, or `None` |
| HealthCheck.VoltageStatusOf | modules/health_check/service.py:43 | `metrics.get("voltage", {}).get("status", "N/A")`: the status text, and `N/A` when the section or its `status` is missing |
| HealthCheck.TooHot | modules/health_check/service.py:49 | `temp and temp > 80`: `None` and `0.0` are falsy and never too hot |
| HealthCheck.AssessHealth | modules/health_check/service.py:34-55 | the verdict is degraded exactly when the voltage status is `WARNING`, the temperature is truthy and above 80, or the CPU or memory percentage is above 95; otherwise it is healthy. It is never unhealthy |
| HealthCheck.TooHotIsAbove80 | modules/health_check/service.py:49 | the truthiness test adds nothing: too hot means present and above 80 |
| HealthCheck.MissingSectionsAreHealthy | modules/health_check/service.py:40-43 | with every section missing, the defaults give healthy |
| HealthCheck.VoltageWarningDegrades | modules/health_check/service.py:46-47 | a voltage warning degrades the verdict whatever else the snapshot holds |
| HealthCheck.ThresholdsAreStrict | modules/health_check/service.py:49-55 | exactly 80 degrees, 95% CPU and 95% memory still give healthy |
| HealthCheck.VoltageRuleReadsStatus | modules/health_check/service.py:43-47 | the voltage rule fires exactly when the section's `status` is `WARNING` |
| HealthCheck.ThrottleWordDegrades | modules/health_check/service.py:43-47 | on the stateless snapshot, the voltage rule fires exactly when the tool reported a parsed non-zero word |
| HealthCheck.WithHealthStatus | modules/health_check/service.py:29-32 | `{**metrics, "health_status": verdict}` keeps every key's value and adds the verdict |
| HealthCheck.GetHealthStatus | modules/health_check/service.py:19-32 | the stateless service's seven sections unchanged, plus `health_status` holding the verdict on them: eight keys |
| HealthCheck.HealthStatusKeyIsNew | modules/health_check/service.py:29-32 | `health_status` overwrites no section |
| Dashboard.NextAttempts | static/js/health.js:51-59 | one `attemptReconnect` raises the counter by at most one, and by one exactly when it was below 5 |
| Dashboard.AttemptsAfter | static/js/health.js:23-59 | the counter after a sequence of `onopen` (reset to 0) and `onclose` (`attemptReconnect`) events |
| Dashboard.AttemptsBounded | static/js/health.js:51-59 | whatever sequence of opens and closes occurs, the counter never exceeds 5 |
| Dashboard.ClosesSaturate | static/js/health.js:51-59 | `k` closes in a row from `n` leave the counter at `min(n + k, 5)` |
| Dashboard.OpenResets | static/js/health.js:23-26 | an open resets the count, so only the closes after it matter |
| Dashboard.HealthMonitor.constructor | static/js/health.js:3-9 | the counter starts at 0, with maximum 5 and a 3000 ms delay |
| Dashboard.HealthMonitor.OnOpen | static/js/health.js:23-26 | the counter is reset to 0 |
| Dashboard.HealthMonitor.AttemptReconnect | static/js/health.js:51-59 | a reconnect is scheduled exactly when the counter was below 5, and the counter grows only then |
| Dashboard.UpdateHealthStatus | static/js/health.js:273-303 | the dashboard's four independent tests give the same verdict as `_assess_health` |
| Dashboard.TemperatureLabelOf | static/js/health.js:114-123 | the label is Unavailable exactly for a null reading, High above 80, Warm in (60, 80] and Normal at or below 60 |
| Dashboard.LabelMonotone | static/js/health.js:119 | a hotter reading never gets a milder label |
| Dashboard.HighLabelMeansDegraded | static/js/health.js:119 | a High label implies the overall verdict is degraded |
| Dashboard.ClassifyIssues | static/js/health.js:165-207 | the pushes give the issues of the current conditions and the notes of the past ones, in the panel's order |
| Dashboard.CollectActive | static/js/health.js:165-193 | the active list holds the issues of exactly the current conditions, in order |
| Dashboard.CollectOccurred | static/js/health.js:195-207 | the history holds the notes of exactly the latched but not current conditions, in order |
| Dashboard.ActiveAmongExactly | static/js/health.js:165-193 | a condition is listed as active exactly when its current flag is set |
| Dashboard.PastAmongExactly | static/js/health.js:195-207 | a condition is listed as past exactly when it occurred and is not current |
| Dashboard.ActiveAmongInOrder | static/js/health.js:165-193 | the listed issues keep the panel's checking order |
| Dashboard.PastAmongInOrder | static/js/health.js:195-207 | the listed past issues keep the panel's checking order |
| Dashboard.SeverityOfIssues | static/js/health.js:165-193 | under-voltage and throttling are high severity; capping and the soft limit are medium |
| Dashboard.Panel | static/js/health.js:144-241 | when the panel lists active issues, the list is non-empty, and a history is shown only when it is non-empty |
| Dashboard.ShowVoltagePanel | static/js/health.js:144-241 | the panel shows OK, the issues, "No active issues", "details unavailable" or the status, exactly as `Panel` decides, with the issue lists built by the push loops of `ClassifyIssues` |
| Dashboard.PastOnlyShowsNoActiveIssues | static/js/health.js:209-230 | with no current condition, the panel says "No active issues" even when past ones are latched |
| Dashboard.ProbeNeverLacksDetails | static/js/health.js:231-234 | the throttle probe always sends flags with a warning, so "details unavailable" never appears for it |
| Dashboard.UnparsedShowsNotAvailable | static/js/health.js:145 | an unparsed throttle output reaches the panel as status `N/A` |
| Dashboard.ProcessTileOf | static/js/health.js:243-256 | the tile shows `--` exactly when the snapshot lacks `process_count`, and a shown count uses the non-zero core count when there is one |
| Dashboard.BajaSnapshotCount | static/js/health.js:243-256 | on the stateful snapshot, the tile shows the pid count exactly when `pids()` returned, and `N/A` otherwise |
| Dashboard.AppSnapshotDashes | static/js/health.js:253-256 | on the stateless snapshot, the tile shows `--` |

## Left out

- Host access: psutil, `platform`, `subprocess.run` and `settings.health_check_timeout` are not called. Their results are parameters (`HostReadings`, `CpuReadings`, `Command`).
- `subprocess.run`'s OSErrors other than a timeout or a missing binary are not modelled. They escape both probes in the source.
- `float()`, the f-string rendering of a float and `round(x, 2)` are parameters (`Conversions`). Floating-point arithmetic is not modelled, and the loads and temperatures are reals.
- Strings.Strip: only ASCII whitespace (space, tab, line feed, vertical tab, form feed, carriage return and the separators \x1c-\x1f) is stripped. The non-ASCII whitespace `str.strip()` also removes (such as \x85, \xa0 and \u2028) is not modelled, because Unicode whitespace classes are not.
- Strings.Lower: only ASCII letters are lower-cased, for the same reason.
- Throttle.ParseHex: the grammar accepts an optional `0x` or `0X` prefix and hex digits only. The signs, underscores, surrounding whitespace and non-ASCII Unicode digits (such as full-width digits) that `int(s, 16)` also accepts are not modelled.
- `net_io_counters()` returning `None` (an AttributeError in the source) is folded into a raising probe.
- Concurrency: two threads racing on the class attributes of the stateful service are not modelled. One `SystemMetricsService` instance stands for the class and its attributes.
- `HealthCheckModule.__init__` only builds a stateless service, so `HealthCheck` is a set of functions, not a class.
- app/models/health.py is not part of this model. Validation uses the records of baja_testbench/models/health.py.
- Dashboard: the WebSocket, `setTimeout`, polling, `fetch`, the DOM writes and the number formatting (`toFixed`) are left out. The model keeps the decisions they display.
- Dashboard.Issue: the issue `name` and `description` texts are member functions of the condition rather than fields. The HTML they are written into is not modelled.
- Dashboard.Note: the past-issue texts are likewise a member function (`Text`) of the condition.
- The FastAPI routes, the router, `run.py` and the configuration only wire the core together and are not modelled.
