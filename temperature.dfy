/** `get_cpu_temperature`: `vcgencmd measure_temp` first, then psutil's
    sensor groups, then the `N/A` sentinel (the same code stands in both
    service files; only the unit suffix of the fallback's `raw` differs). */
module Temperature {
  import opened Wrappers
  import opened Strings

  /** The dict the probe returns: `raw`, `celsius` (None when absent) and
      `available`. */
  datatype TemperatureInfo = TemperatureInfo(raw: string, celsius: Option<real>, available: bool)

  /** `{"raw": "N/A", "celsius": None, "available": False}` */
  const TemperatureUnavailable := TemperatureInfo("N/A", None, false)

  /** The suffix the fallback appends to the reading in
      baja_testbench/services/system_metrics.py. */
  const BajaUnit := "°C"

  /** The suffix in app/services/system_metrics.py, whose source holds the
      UTF-8 bytes of the degree sign read back as Latin-1. */
  const AppUnit := "Â°C"

  /** One entry of `psutil.sensors_temperatures()`: a group name and the
      `current` values of its readings, in order. */
  datatype SensorGroup = SensorGroup(name: string, currents: seq<real>)

  /** The group name test of the fallback: `'cpu' in name.lower() or
      'core' in name.lower()`. */
  predicate IsCpuSensorName(name: string) {
    Contains(Lower(name), "cpu") || Contains(Lower(name), "core")
  }

  /** A group the fallback accepts: a CPU name and at least one reading. */
  predicate IsUsableGroup(g: SensorGroup) {
    IsCpuSensorName(g.name) && g.currents != []
  }

  /** The position of the first usable group, in iteration order. */
  function FirstUsableGroup(groups: seq<SensorGroup>): (r: Option<nat>)
    ensures r.Some? ==> r.value < |groups| && IsUsableGroup(groups[r.value])
    ensures r.Some? ==> forall j :: 0 <= j < r.value ==> !IsUsableGroup(groups[j])
    ensures r.None? <==> forall j :: 0 <= j < |groups| ==> !IsUsableGroup(groups[j])
  {
    if groups == [] then None
    else if IsUsableGroup(groups[0]) then Some(0)
    else
      match FirstUsableGroup(groups[1..])
      case None => None
      case Some(i) => Some(i + 1)
  }

  /** The text handed to `float()`: `temp_str.split("=")[1].replace("'C", "")`,
      absent where the split raises IndexError. */
  function MeasureTempText(tempStr: string): (r: Option<string>)
    ensures r.Some? <==> '=' in tempStr
  {
    match SecondField(tempStr, '=')
    case None => None
    case Some(field) => Some(RemoveAll(field, "'C"))
  }

  /** The first path: the reading from `vcgencmd measure_temp`, absent on a
      timeout, a missing tool, a non-zero exit, IndexError or ValueError. */
  function MeasureTemp(cmd: Command, parseFloat: string -> Option<real>): (r: Option<TemperatureInfo>)
    ensures r.Some? ==> r.value.available && r.value.celsius.Some?
    ensures r.Some? <==> cmd.Completed? && cmd.returnCode == 0
                         && MeasureTempText(Strip(cmd.stdout)).Some?
                         && parseFloat(MeasureTempText(Strip(cmd.stdout)).value).Some?
    ensures r.Some? ==> r.value.raw == Strip(cmd.stdout)
                        && r.value.celsius == parseFloat(MeasureTempText(Strip(cmd.stdout)).value)
  {
    match cmd
    case Completed(code, stdout) =>
      if code != 0 then None
      else
        var tempStr := Strip(stdout);
        (match MeasureTempText(tempStr)
         case None => None
         case Some(text) =>
           (match parseFloat(text)
            case None => None
            case Some(c) => Some(TemperatureInfo(tempStr, Some(c), true))))
    case TimedOut => None
    case NotFound => None
  }

  /** The fallback: the first reading of the first usable sensor group,
      absent when psutil raises, reports nothing, or no group is usable. */
  function SensorFallback(sensors: Probe<seq<SensorGroup>>, render: real -> string, unit: string)
    : (r: Option<TemperatureInfo>)
    ensures r.Some? ==> r.value.available && r.value.celsius.Some?
    ensures r.Some? <==> sensors.Returned? && FirstUsableGroup(sensors.value).Some?
    ensures r.Some? ==>
      var c := sensors.value[FirstUsableGroup(sensors.value).value].currents[0];
      r.value == TemperatureInfo(render(c) + unit, Some(c), true)
  {
    match sensors
    case Raised(_) => None
    case Returned(groups) =>
      if groups == [] then None
      else
        match FirstUsableGroup(groups)
        case None => None
        case Some(i) =>
          var c := groups[i].currents[0];
          Some(TemperatureInfo(render(c) + unit, Some(c), true))
  }

  /** `get_cpu_temperature`. `parseFloat` stands for Python's `float()` and
      `render` for the f-string formatting of a reading. */
  function CpuTemperature(cmd: Command, sensors: Probe<seq<SensorGroup>>,
                          parseFloat: string -> Option<real>, render: real -> string, unit: string)
    : (t: TemperatureInfo)
    ensures t.available <==> t.celsius.Some?
    ensures MeasureTemp(cmd, parseFloat).Some? ==> t == MeasureTemp(cmd, parseFloat).value
    ensures MeasureTemp(cmd, parseFloat).None? ==>
      t == (match SensorFallback(sensors, render, unit)
            case Some(f) => f
            case None => TemperatureUnavailable)
  {
    match MeasureTemp(cmd, parseFloat)
    case Some(t) => t
    case None =>
      match SensorFallback(sensors, render, unit)
      case Some(t) => t
      case None => TemperatureUnavailable
  }

  /** The tool's line `temp=<digits>'C` hands exactly `<digits>` to `float()`,
      whatever trailing whitespace follows it. */
  lemma MeasureTempTextOfToolLine(digits: string, w: string)
    requires '=' !in digits && '\'' !in digits
    requires forall k :: 0 <= k < |w| ==> IsSpace(w[k])
    ensures MeasureTempText(Strip("temp=" + digits + "'C" + w)) == Some(digits)
  {
    var line := "temp=" + digits + "'C";
    assert line[0] == 't' && line[|line| - 1] == 'C';
    StripTrailingSpace(line, w);
    assert '=' !in "temp";
    assert '=' !in digits + "'C";
    assert line == "temp" + ['='] + (digits + "'C") + [];
    SecondFieldBetween("temp", digits + "'C", [], '=');
    RemoveAllTrailing(digits, "'C");
  }

  /** A successful `temp=<digits>'C` reading wins over the sensors: `raw` is
      the stripped line and `celsius` the parsed digits. */
  lemma ToolLineReading(digits: string, w: string, sensors: Probe<seq<SensorGroup>>,
                        parseFloat: string -> Option<real>, render: real -> string, unit: string)
    requires '=' !in digits && '\'' !in digits
    requires forall k :: 0 <= k < |w| ==> IsSpace(w[k])
    requires parseFloat(digits).Some?
    ensures CpuTemperature(Completed(0, "temp=" + digits + "'C" + w), sensors, parseFloat, render, unit)
            == TemperatureInfo("temp=" + digits + "'C", parseFloat(digits), true)
  {
    var line := "temp=" + digits + "'C";
    assert line[0] == 't' && line[|line| - 1] == 'C';
    StripTrailingSpace(line, w);
    MeasureTempTextOfToolLine(digits, w);
  }

  /** Output without `=` (IndexError) is not an error: the sensor fallback
      decides, and with no usable sensor the result is the sentinel. */
  lemma NoEqualsFallsBack(out: string, sensors: Probe<seq<SensorGroup>>,
                          parseFloat: string -> Option<real>, render: real -> string, unit: string)
    requires '=' !in Strip(out)
    ensures CpuTemperature(Completed(0, out), sensors, parseFloat, render, unit) ==
      (match SensorFallback(sensors, render, unit)
       case Some(f) => f
       case None => TemperatureUnavailable)
  {
  }

  /** A CPU-named group with no readings is skipped and the scan goes on:
      with `cpu_thermal` empty, `coretemp`'s first reading is used. */
  lemma EmptyGroupIsSkipped(cmd: Command, parseFloat: string -> Option<real>, render: real -> string,
                            unit: string, c: real, rest: seq<real>)
    requires MeasureTemp(cmd, parseFloat).None?
    ensures CpuTemperature(cmd, Returned([SensorGroup("cpu_thermal", []), SensorGroup("coretemp", [c] + rest)]),
                           parseFloat, render, unit)
            == TemperatureInfo(render(c) + unit, Some(c), true)
  {
    var groups := [SensorGroup("cpu_thermal", []), SensorGroup("coretemp", [c] + rest)];
    assert !IsUsableGroup(groups[0]);
    assert OccursAt(Lower("coretemp"), "core", 0);
    assert IsUsableGroup(groups[1]);
    assert FirstUsableGroup(groups) == Some(1);
  }
}
