/** The decision logic of `HealthMonitor` in static/js/health.js, with the
    DOM writes, the WebSocket and the timers taken away: the reconnect
    counter, the overall status, the temperature label, the voltage panel
    and the process-count tile. */
module Dashboard {
  import opened Wrappers
  import opened Probes
  import opened Throttle
  import opened Snapshot
  import opened HealthCheck
  import BajaMetrics
  import AppMetrics

  // ---------------------------------------------------------------------
  // Reconnect counter

  const MaxReconnectAttempts: nat := 5

  /** The counter after one `attemptReconnect`: it grows only while below
      the maximum. */
  function NextAttempts(n: nat): (r: nat)
    ensures n <= r <= n + 1
    ensures r == n + 1 <==> n < MaxReconnectAttempts
  {
    if n < MaxReconnectAttempts then n + 1 else n
  }

  /** What happens to a connection: `onopen` or `onclose`. */
  datatype ConnectionEvent = Opened | Closed

  /** The counter after a sequence of events: an open resets it, a close
      attempts a reconnect. */
  function AttemptsAfter(n: nat, events: seq<ConnectionEvent>): nat
    decreases |events|
  {
    if events == [] then n
    else AttemptsAfter(if events[0] == Opened then 0 else NextAttempts(n), events[1..])
  }

  /** Whatever happens, the counter never passes the maximum. */
  lemma {:induction false} AttemptsBounded(n: nat, events: seq<ConnectionEvent>)
    requires n <= MaxReconnectAttempts
    ensures AttemptsAfter(n, events) <= MaxReconnectAttempts
    decreases |events|
  {
    if events != [] {
      AttemptsBounded(if events[0] == Opened then 0 else NextAttempts(n), events[1..]);
    }
  }

  function Closes(k: nat): seq<ConnectionEvent> {
    if k == 0 then [] else [Closed] + Closes(k - 1)
  }

  /** `k` disconnections in a row from `n` leave the counter at
      `min(n + k, 5)`: after five, no further reconnect is scheduled. */
  lemma {:induction false} ClosesSaturate(n: nat, k: nat)
    requires n <= MaxReconnectAttempts
    ensures AttemptsAfter(n, Closes(k)) == if n + k < MaxReconnectAttempts then n + k else MaxReconnectAttempts
    decreases k
  {
    if k > 0 {
      assert Closes(k)[1..] == Closes(k - 1);
      ClosesSaturate(NextAttempts(n), k - 1);
    }
  }

  /** An open in the history resets the count: only the closes after the
      last open matter. */
  lemma OpenResets(n: nat, events: seq<ConnectionEvent>)
    ensures AttemptsAfter(n, [Opened] + events) == AttemptsAfter(0, events)
  {
    assert ([Opened] + events)[1..] == events;
  }

  class HealthMonitor {
    var reconnectAttempts: nat
    const maxReconnectAttempts: nat
    const reconnectDelay: nat

    predicate Valid()
      reads this
    {
      maxReconnectAttempts == MaxReconnectAttempts && reconnectAttempts <= maxReconnectAttempts
    }

    constructor()
      ensures Valid() && reconnectAttempts == 0 && reconnectDelay == 3000
    {
      reconnectAttempts := 0;
      maxReconnectAttempts := MaxReconnectAttempts;
      reconnectDelay := 3000;
    }

    /** `ws.onopen` */
    method OnOpen()
      requires Valid()
      modifies this
      ensures Valid() && reconnectAttempts == 0
    {
      reconnectAttempts := 0;
    }

    /** `attemptReconnect`: `scheduled` says whether a reconnect timer is set. */
    method AttemptReconnect() returns (scheduled: bool)
      requires Valid()
      modifies this
      ensures Valid()
      ensures scheduled <==> old(reconnectAttempts) < maxReconnectAttempts
      ensures reconnectAttempts == NextAttempts(old(reconnectAttempts))
    {
      scheduled := false;
      if reconnectAttempts < maxReconnectAttempts {
        reconnectAttempts := reconnectAttempts + 1;
        scheduled := true;
      }
    }
  }

  // ---------------------------------------------------------------------
  // Overall status

  /** `updateHealthStatus`: each of the four tests may set `degraded`; none
      sets it back. Absent fields compare false, as `undefined > 95` does. */
  method UpdateHealthStatus(data: Metrics) returns (status: HealthLabel)
    ensures status == AssessHealth(data)
  {
    status := Healthy;
    if VoltageKey in data && data[VoltageKey].VoltageSection? && data[VoltageKey].voltage.status.Some?
       && StatusText(data[VoltageKey].voltage.status.value) == "WARNING" {
      status := Degraded;
    }
    if TemperatureKey in data && data[TemperatureKey].TemperatureSection?
       && data[TemperatureKey].temperature.celsius.Some? && data[TemperatureKey].temperature.celsius.value > 80.0 {
      status := Degraded;
    }
    if CpuKey in data && data[CpuKey].CpuSection? && data[CpuKey].cpu.Cpu? && data[CpuKey].cpu.usagePercent > 95.0 {
      status := Degraded;
    }
    if MemoryKey in data && data[MemoryKey].MemorySection? && data[MemoryKey].memory.Memory?
       && data[MemoryKey].memory.percent > 95.0 {
      status := Degraded;
    }
  }

  // ---------------------------------------------------------------------
  // Temperature label

  datatype TemperatureLabel = Unavailable | High | Warm | Normal

  /** `temp > 80 ? 'High' : temp > 60 ? 'Warm' : 'Normal'`, or `Unavailable`
      for a null reading. */
  function TemperatureLabelOf(celsius: Option<real>): (l: TemperatureLabel)
    ensures l == Unavailable <==> celsius.None?
    ensures l == High <==> TooHot(celsius)
    ensures l == Warm <==> celsius.Some? && 60.0 < celsius.value <= 80.0
    ensures l == Normal <==> celsius.Some? && celsius.value <= 60.0
  {
    match celsius
    case None => Unavailable
    case Some(t) => if t > 80.0 then High else if t > 60.0 then Warm else Normal
  }

  function Rank(l: TemperatureLabel): nat {
    match l
    case Unavailable => 0
    case Normal => 0
    case Warm => 1
    case High => 2
  }

  /** A hotter reading never gets a milder label. */
  lemma LabelMonotone(a: real, b: real)
    requires a <= b
    ensures Rank(TemperatureLabelOf(Some(a))) <= Rank(TemperatureLabelOf(Some(b)))
  {
  }

  /** The tile shows `High` exactly when the assessor's temperature rule
      degrades the snapshot. */
  lemma HighLabelMeansDegraded(m: Metrics)
    requires TemperatureLabelOf(CelsiusOf(m)) == High
    ensures AssessHealth(m) == Degraded
  {
  }

  // ---------------------------------------------------------------------
  // Voltage panel

  /** The four conditions the panel reports, in the order it checks them. */
  datatype Condition = UnderVoltage | Throttled | FrequencyCapped | SoftTempLimit

  const IssueOrder := [UnderVoltage, Throttled, FrequencyCapped, SoftTempLimit]

  /** The current flag of a condition. */
  predicate IsActive(f: ThrottleFlags, c: Condition) {
    match c
    case UnderVoltage => f.underVoltage
    case Throttled => f.throttled
    case FrequencyCapped => f.frequencyCapped
    case SoftTempLimit => f.softTempLimit
  }

  /** The latched ("occurred") flag of a condition. */
  predicate HasOccurred(f: ThrottleFlags, c: Condition) {
    match c
    case UnderVoltage => f.underVoltageOccurred
    case Throttled => f.throttledOccurred
    case FrequencyCapped => f.frequencyCappedOccurred
    case SoftTempLimit => f.softTempLimitOccurred
  }

  /** A past issue: latched, but not current. */
  predicate IsPast(f: ThrottleFlags, c: Condition) {
    HasOccurred(f, c) && !IsActive(f, c)
  }

  datatype Severity = HighSeverity | MediumSeverity

  /** An entry of `activeIssues`: the condition and its severity; the
      `name` and `description` texts are fixed per condition. */
  datatype Issue = Issue(condition: Condition, severity: Severity)
  {
    function Name(): string {
      match condition
      case UnderVoltage => "Under Voltage"
      case Throttled => "CPU Throttled"
      case FrequencyCapped => "Frequency Capped"
      case SoftTempLimit => "Soft Temp Limit"
    }

    function Description(): string {
      match condition
      case UnderVoltage => "System voltage is below safe threshold. Performance may be reduced."
      case Throttled => "CPU frequency reduced due to thermal or power constraints."
      case FrequencyCapped => "CPU frequency limited to prevent overheating."
      case SoftTempLimit => "Temperature protection active, performance reduced."
    }
  }

  function IssueOf(c: Condition): Issue {
    match c
    case UnderVoltage => Issue(UnderVoltage, HighSeverity)
    case Throttled => Issue(Throttled, HighSeverity)
    case FrequencyCapped => Issue(FrequencyCapped, MediumSeverity)
    case SoftTempLimit => Issue(SoftTempLimit, MediumSeverity)
  }

  /** An entry of `occurredIssues`: the text is fixed per condition. */
  datatype Note = PastNote(condition: Condition)
  {
    function Text(): string {
      match condition
      case UnderVoltage => "Under voltage occurred in past"
      case Throttled => "Throttling occurred in past"
      case FrequencyCapped => "Frequency capping occurred in past"
      case SoftTempLimit => "Soft temp limit occurred in past"
    }
  }

  /** The conditions of `cs` that are current, in the order of `cs`. */
  function ActiveAmong(f: ThrottleFlags, cs: seq<Condition>): seq<Condition> {
    if cs == [] then []
    else (if IsActive(f, cs[0]) then [cs[0]] else []) + ActiveAmong(f, cs[1..])
  }

  /** The conditions of `cs` that are past issues, in the order of `cs`. */
  function PastAmong(f: ThrottleFlags, cs: seq<Condition>): seq<Condition> {
    if cs == [] then []
    else (if IsPast(f, cs[0]) then [cs[0]] else []) + PastAmong(f, cs[1..])
  }

  function Issues(cs: seq<Condition>): seq<Issue> {
    seq(|cs|, i requires 0 <= i < |cs| => IssueOf(cs[i]))
  }

  function Notes(cs: seq<Condition>): seq<Note> {
    seq(|cs|, i requires 0 <= i < |cs| => PastNote(cs[i]))
  }

  /** The issue classification: four pushes onto `activeIssues`, then four
      onto `occurredIssues`. */
  method ClassifyIssues(f: ThrottleFlags) returns (active: seq<Issue>, occurred: seq<Note>)
    ensures active == Issues(ActiveAmong(f, IssueOrder))
    ensures occurred == Notes(PastAmong(f, IssueOrder))
  {
    active := CollectActive(f);
    occurred := CollectOccurred(f);
  }

  /** The pushes onto `activeIssues`, in the panel's order. */
  method CollectActive(f: ThrottleFlags) returns (active: seq<Issue>)
    ensures active == Issues(ActiveAmong(f, IssueOrder))
  {
    active := [];
    assert IssueOrder[..0] == [];
    assert Issues(ActiveAmong(f, IssueOrder[..0])) == [];
    if f.underVoltage {
      active := active + [IssueOf(UnderVoltage)];
    }
    ActiveStep(f, 0, UnderVoltage);
    assert active == Issues(ActiveAmong(f, IssueOrder[..1]));
    if f.throttled {
      active := active + [IssueOf(Throttled)];
    }
    ActiveStep(f, 1, Throttled);
    assert active == Issues(ActiveAmong(f, IssueOrder[..2]));
    if f.frequencyCapped {
      active := active + [IssueOf(FrequencyCapped)];
    }
    ActiveStep(f, 2, FrequencyCapped);
    assert active == Issues(ActiveAmong(f, IssueOrder[..3]));
    if f.softTempLimit {
      active := active + [IssueOf(SoftTempLimit)];
    }
    ActiveStep(f, 3, SoftTempLimit);
    assert active == Issues(ActiveAmong(f, IssueOrder[..4]));
    assert IssueOrder[..4] == IssueOrder;
  }

  /** The pushes onto `occurredIssues`, in the panel's order. */
  method CollectOccurred(f: ThrottleFlags) returns (occurred: seq<Note>)
    ensures occurred == Notes(PastAmong(f, IssueOrder))
  {
    occurred := [];
    assert IssueOrder[..0] == [];
    assert Notes(PastAmong(f, IssueOrder[..0])) == [];
    if f.underVoltageOccurred && !f.underVoltage {
      occurred := occurred + [PastNote(UnderVoltage)];
    }
    PastStep(f, 0, UnderVoltage);
    assert occurred == Notes(PastAmong(f, IssueOrder[..1]));
    if f.throttledOccurred && !f.throttled {
      occurred := occurred + [PastNote(Throttled)];
    }
    PastStep(f, 1, Throttled);
    assert occurred == Notes(PastAmong(f, IssueOrder[..2]));
    if f.frequencyCappedOccurred && !f.frequencyCapped {
      occurred := occurred + [PastNote(FrequencyCapped)];
    }
    PastStep(f, 2, FrequencyCapped);
    assert occurred == Notes(PastAmong(f, IssueOrder[..3]));
    if f.softTempLimitOccurred && !f.softTempLimit {
      occurred := occurred + [PastNote(SoftTempLimit)];
    }
    PastStep(f, 3, SoftTempLimit);
    assert occurred == Notes(PastAmong(f, IssueOrder[..4]));
    assert IssueOrder[..4] == IssueOrder;
  }

  lemma {:induction false} ActiveAmongSnoc(f: ThrottleFlags, cs: seq<Condition>, c: Condition)
    ensures ActiveAmong(f, cs + [c]) == ActiveAmong(f, cs) + (if IsActive(f, c) then [c] else [])
  {
    if cs == [] {
      assert [c][1..] == [];
    } else {
      assert (cs + [c])[1..] == cs[1..] + [c];
      ActiveAmongSnoc(f, cs[1..], c);
    }
  }

  lemma {:induction false} PastAmongSnoc(f: ThrottleFlags, cs: seq<Condition>, c: Condition)
    ensures PastAmong(f, cs + [c]) == PastAmong(f, cs) + (if IsPast(f, c) then [c] else [])
  {
    if cs == [] {
      assert [c][1..] == [];
    } else {
      assert (cs + [c])[1..] == cs[1..] + [c];
      PastAmongSnoc(f, cs[1..], c);
    }
  }

  /** One push of the active list: the issues of the first `k + 1` conditions. */
  lemma ActiveStep(f: ThrottleFlags, k: nat, c: Condition)
    requires k < |IssueOrder| && IssueOrder[k] == c
    ensures Issues(ActiveAmong(f, IssueOrder[..k + 1])) ==
      Issues(ActiveAmong(f, IssueOrder[..k])) + (if IsActive(f, c) then [IssueOf(c)] else [])
  {
    assert IssueOrder[..k + 1] == IssueOrder[..k] + [c];
    ActiveAmongSnoc(f, IssueOrder[..k], c);
  }

  /** One push of the past list. */
  lemma PastStep(f: ThrottleFlags, k: nat, c: Condition)
    requires k < |IssueOrder| && IssueOrder[k] == c
    ensures Notes(PastAmong(f, IssueOrder[..k + 1])) ==
      Notes(PastAmong(f, IssueOrder[..k])) + (if IsPast(f, c) then [PastNote(c)] else [])
  {
    assert IssueOrder[..k + 1] == IssueOrder[..k] + [c];
    PastAmongSnoc(f, IssueOrder[..k], c);
  }

  /** Exactly the current conditions are listed as active issues. */
  lemma {:induction false} ActiveAmongExactly(f: ThrottleFlags, cs: seq<Condition>, c: Condition)
    ensures c in ActiveAmong(f, cs) <==> c in cs && IsActive(f, c)
  {
    if cs != [] {
      ActiveAmongExactly(f, cs[1..], c);
      assert cs == [cs[0]] + cs[1..];
    }
  }

  /** Exactly the latched conditions that are not current are listed as
      past issues. */
  lemma {:induction false} PastAmongExactly(f: ThrottleFlags, cs: seq<Condition>, c: Condition)
    ensures c in PastAmong(f, cs) <==> c in cs && HasOccurred(f, c) && !IsActive(f, c)
  {
    if cs != [] {
      PastAmongExactly(f, cs[1..], c);
      assert cs == [cs[0]] + cs[1..];
    }
  }

  /** The active list keeps the panel's order: an issue listed before
      another comes before it in `IssueOrder`. */
  lemma {:induction false} ActiveAmongInOrder(f: ThrottleFlags, cs: seq<Condition>, i: nat, j: nat)
    requires i < j < |ActiveAmong(f, cs)|
    ensures exists p, q :: 0 <= p < q < |cs| && cs[p] == ActiveAmong(f, cs)[i] && cs[q] == ActiveAmong(f, cs)[j]
  {
    var head := if IsActive(f, cs[0]) then [cs[0]] else [];
    var rest := ActiveAmong(f, cs[1..]);
    assert ActiveAmong(f, cs) == head + rest;
    if head == [] {
      ActiveAmongInOrder(f, cs[1..], i, j);
      var p, q :| 0 <= p < q < |cs[1..]| && cs[1..][p] == rest[i] && cs[1..][q] == rest[j];
      assert cs[p + 1] == ActiveAmong(f, cs)[i] && cs[q + 1] == ActiveAmong(f, cs)[j];
    } else if i == 0 {
      ActiveAmongExactly(f, cs[1..], rest[j - 1]);
      assert rest[j - 1] in rest;
      var q :| 0 <= q < |cs[1..]| && cs[1..][q] == rest[j - 1];
      assert cs[0] == ActiveAmong(f, cs)[i] && cs[q + 1] == ActiveAmong(f, cs)[j];
    } else {
      ActiveAmongInOrder(f, cs[1..], i - 1, j - 1);
      var p, q :| 0 <= p < q < |cs[1..]| && cs[1..][p] == rest[i - 1] && cs[1..][q] == rest[j - 1];
      assert cs[p + 1] == ActiveAmong(f, cs)[i] && cs[q + 1] == ActiveAmong(f, cs)[j];
    }
  }

  /** The history keeps the panel's order too. */
  lemma {:induction false} PastAmongInOrder(f: ThrottleFlags, cs: seq<Condition>, i: nat, j: nat)
    requires i < j < |PastAmong(f, cs)|
    ensures exists p, q :: 0 <= p < q < |cs| && cs[p] == PastAmong(f, cs)[i] && cs[q] == PastAmong(f, cs)[j]
  {
    var head := if IsPast(f, cs[0]) then [cs[0]] else [];
    var rest := PastAmong(f, cs[1..]);
    assert PastAmong(f, cs) == head + rest;
    if head == [] {
      PastAmongInOrder(f, cs[1..], i, j);
      var p, q :| 0 <= p < q < |cs[1..]| && cs[1..][p] == rest[i] && cs[1..][q] == rest[j];
      assert cs[p + 1] == PastAmong(f, cs)[i] && cs[q + 1] == PastAmong(f, cs)[j];
    } else if i == 0 {
      PastAmongExactly(f, cs[1..], rest[j - 1]);
      assert rest[j - 1] in rest;
      var q :| 0 <= q < |cs[1..]| && cs[1..][q] == rest[j - 1];
      assert cs[0] == PastAmong(f, cs)[i] && cs[q + 1] == PastAmong(f, cs)[j];
    } else {
      PastAmongInOrder(f, cs[1..], i - 1, j - 1);
      var p, q :| 0 <= p < q < |cs[1..]| && cs[1..][p] == rest[i - 1] && cs[1..][q] == rest[j - 1];
      assert cs[p + 1] == PastAmong(f, cs)[i] && cs[q + 1] == PastAmong(f, cs)[j];
    }
  }

  /** The severities: under-voltage and throttling are high, capping and
      the soft limit medium. */
  lemma SeverityOfIssues(c: Condition)
    ensures IssueOf(c).severity == HighSeverity <==> c == UnderVoltage || c == Throttled
  {
  }

  /** What the voltage panel shows. */
  datatype VoltagePanel =
    | PanelOk                                                  // "No throttling detected"
    | PanelIssues(active: seq<Issue>, history: Option<seq<Note>>)      // "<n> active issue(s)"
    | PanelNoActiveIssues                                      // "No active issues"
    | PanelDetailsUnavailable                                  // "Status: WARNING (details unavailable)"
    | PanelOther(status: string)                               // the status, "Status unavailable"

  /** `data.voltage.status || 'N/A'` */
  function StatusShown(v: VoltageInfo): string {
    match v.status
    case None => "N/A"
    case Some(s) => StatusText(s)
  }

  /** The panel as a function of the voltage section. */
  function Panel(v: VoltageInfo): (p: VoltagePanel)
    ensures p.PanelIssues? ==> p.active != [] && (p.history.Some? ==> p.history.value != [])
  {
    var status := StatusShown(v);
    if status == "OK" then PanelOk
    else if status == "WARNING" then
      match v.flags
      case None => PanelDetailsUnavailable
      case Some(f) =>
        var active := Issues(ActiveAmong(f, IssueOrder));
        var occurred := Notes(PastAmong(f, IssueOrder));
        if |active| > 0 then PanelIssues(active, if |occurred| > 0 then Some(occurred) else None)
        else PanelNoActiveIssues
    else PanelOther(status)
  }

  /** The voltage branch of `updateHealthDisplay` as the dashboard runs it:
      the same status tests as `Panel`, which specifies it, but the issue
      lists come from the push loops of `ClassifyIssues`. */
  method ShowVoltagePanel(v: VoltageInfo) returns (p: VoltagePanel)
    ensures p == Panel(v)
  {
    var status := StatusShown(v);
    if status == "OK" {
      p := PanelOk;
    } else if status == "WARNING" {
      if v.flags.Some? {
        var active, occurred := ClassifyIssues(v.flags.value);
        if |active| > 0 {
          p := PanelIssues(active, if |occurred| > 0 then Some(occurred) else None);
        } else {
          p := PanelNoActiveIssues;
        }
      } else {
        p := PanelDetailsUnavailable;
      }
    } else {
      p := PanelOther(status);
    }
  }

  /** With nothing current, the panel says "No active issues" even when
      past issues are latched: the history appears only beside active ones. */
  lemma PastOnlyShowsNoActiveIssues(raw: string, hex: Option<string>, f: ThrottleFlags)
    requires !f.underVoltage && !f.throttled && !f.frequencyCapped && !f.softTempLimit
    ensures Panel(VoltageInfo(raw, hex, Some(f), Some(Warning), true)) == PanelNoActiveIssues
  {
    var active := ActiveAmong(f, IssueOrder);
    if active != [] {
      ActiveAmongExactly(f, IssueOrder, active[0]);
      assert false;
    }
  }

  /** The throttle probe always sends flags with a warning, so the panel
      never falls back to "details unavailable" for it. */
  lemma ProbeNeverLacksDetails(cmd: Command)
    ensures Panel(ThrottleStatus(cmd)) != PanelDetailsUnavailable
  {
  }

  /** An output the probe could not parse reaches the panel as "N/A". */
  lemma UnparsedShowsNotAvailable(cmd: Command)
    requires ThrottleStatus(cmd).status.None?
    ensures Panel(ThrottleStatus(cmd)) == PanelOther("N/A")
  {
  }

  // ---------------------------------------------------------------------
  // Process count tile

  /** What the process tile shows: the count with the cores line (`Some(n)`
      for "Running on n cores", `None` for "Active processes"), "N/A", or
      "--" when the snapshot has no `process_count`. */
  datatype ProcessTile = CountShown(count: nat, cores: Option<nat>) | CountUnavailable | NoProcessSection

  /** `data.cpu && data.cpu.count`: a present, non-zero core count. */
  function CoresOf(data: Metrics): Option<nat> {
    if CpuKey in data && data[CpuKey].CpuSection? && data[CpuKey].cpu.Cpu?
       && data[CpuKey].cpu.count.Some? && data[CpuKey].cpu.count.value != 0
    then data[CpuKey].cpu.count else None
  }

  function ProcessTileOf(data: Metrics): (t: ProcessTile)
    ensures t.NoProcessSection? <==> ProcessCountKey !in data
    ensures t.CountShown? ==> t.cores == CoresOf(data)
  {
    if ProcessCountKey !in data then NoProcessSection
    else match data[ProcessCountKey]
      case ProcessCountSection(ProcessCount(n)) => CountShown(n, CoresOf(data))
      case _ => CountUnavailable
  }

  /** On the stateful service's snapshot the tile shows the number of pids,
      or "N/A" when `psutil.pids()` raised. */
  lemma BajaSnapshotCount(s: BajaMetrics.SamplerState, h: HostReadings, warmUp: Probe<real>,
                          cpu: BajaMetrics.CpuReadings, conv: Conversions)
    ensures
      var t := ProcessTileOf(BajaMetrics.AllMetrics(s, h, warmUp, cpu, conv).metrics);
      (t.CountShown? <==> h.pids.Returned?) && (t.CountShown? ==> t.count == |h.pids.value|)
      && (h.pids.Raised? ==> t == CountUnavailable)
  {
  }

  /** The stateless service sends no `process_count`, so the tile shows "--". */
  lemma AppSnapshotDashes(h: HostReadings, cpu: AppMetrics.CpuReadings, conv: Conversions)
    ensures ProcessTileOf(AppMetrics.GetAllMetrics(h, cpu, conv)) == NoProcessSection
  {
  }
}
