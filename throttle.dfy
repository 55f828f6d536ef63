/** `get_throttle_status`: decoding the bitmask reported by
    `vcgencmd get_throttled` (the same code stands in both service files). */
module Throttle {
  import opened Wrappers
  import opened Strings

  // ---------------------------------------------------------------------
  // Hexadecimal numerals: `int(s, 16)` on an optional 0x/0X prefix followed
  // by hex digits.

  predicate IsHexDigit(c: char) {
    '0' <= c <= '9' || 'a' <= c <= 'f' || 'A' <= c <= 'F'
  }

  predicate AllHexDigits(s: string) {
    forall i :: 0 <= i < |s| ==> IsHexDigit(s[i])
  }

  function DigitValue(c: char): (d: nat)
    requires IsHexDigit(c)
    ensures d < 16
  {
    if '0' <= c <= '9' then c as int - '0' as int
    else if 'a' <= c <= 'f' then c as int - 'a' as int + 10
    else c as int - 'A' as int + 10
  }

  function DigitChar(d: nat): (c: char)
    requires d < 16
    ensures IsHexDigit(c) && DigitValue(c) == d
  {
    if d < 10 then ('0' as int + d) as char else ('a' as int + d - 10) as char
  }

  /** The value of a string of hex digits, most significant first. */
  function DigitsValue(s: string): nat
    requires AllHexDigits(s)
  {
    if s == [] then 0 else 16 * DigitsValue(s[..|s| - 1]) + DigitValue(s[|s| - 1])
  }

  function WithoutHexPrefix(s: string): string {
    if |s| >= 2 && s[0] == '0' && (s[1] == 'x' || s[1] == 'X') then s[2..] else s
  }

  /** `int(s, 16)`, absent where Python raises ValueError. */
  function ParseHex(s: string): (r: Option<nat>)
    ensures r.Some? <==> WithoutHexPrefix(s) != [] && AllHexDigits(WithoutHexPrefix(s))
  {
    var digits := WithoutHexPrefix(s);
    if digits != [] && AllHexDigits(digits) then Some(DigitsValue(digits)) else None
  }

  /** `format(n, "x")`: the lower-case hex numeral without leading zeros. */
  function ToHex(n: nat): (s: string)
    ensures s != [] && AllHexDigits(s)
  {
    if n < 16 then [DigitChar(n)] else ToHex(n / 16) + [DigitChar(n % 16)]
  }

  lemma {:induction false} DigitsValueToHex(n: nat)
    ensures DigitsValue(ToHex(n)) == n
  {
    if n >= 16 {
      DigitsValueToHex(n / 16);
      var s := ToHex(n);
      assert s[..|s| - 1] == ToHex(n / 16);
    }
  }

  /** Reading back a `0x` numeral gives the number that was written. */
  lemma ParseHexToHex(n: nat)
    ensures ParseHex("0x" + ToHex(n)) == Some(n)
  {
    assert WithoutHexPrefix("0x" + ToHex(n)) == ToHex(n);
    DigitsValueToHex(n);
  }

  // ---------------------------------------------------------------------
  // Bits of a non-negative integer.

  function Pow2(k: nat): (p: nat)
    ensures p >= 1
  {
    if k == 0 then 1 else 2 * Pow2(k - 1)
  }

  /** Bit `k` of `n` in binary. */
  function Bit(n: nat, k: nat): bool {
    if k == 0 then n % 2 == 1 else Bit(n / 2, k - 1)
  }

  /** Python's `a & b` on non-negative integers. */
  function BitAnd(a: nat, b: nat): nat
    decreases a
  {
    if a == 0 || b == 0 then 0
    else 2 * BitAnd(a / 2, b / 2) + (if a % 2 == 1 && b % 2 == 1 then 1 else 0)
  }

  lemma {:induction false} BitOfZero(k: nat)
    ensures !Bit(0, k)
  {
    if k > 0 {
      BitOfZero(k - 1);
    }
  }

  /** Masking with a single bit tests that bit: `bool(n & (1 << k))`. */
  lemma {:induction false} AndSingleBit(n: nat, k: nat)
    ensures (BitAnd(n, Pow2(k)) != 0) == Bit(n, k)
  {
    if n == 0 {
      BitOfZero(k);
    } else if k > 0 {
      AndSingleBit(n / 2, k - 1);
      assert Pow2(k) / 2 == Pow2(k - 1) && Pow2(k) % 2 == 0;
    }
  }

  /** Setting a bit that is clear changes no other bit. */
  lemma {:induction false} SetBitKeepsOthers(n: nat, k: nat, j: nat)
    requires !Bit(n, k) && j != k
    ensures Bit(n + Pow2(k), j) == Bit(n, j)
  {
    if k == 0 {
      assert (n + 1) / 2 == n / 2;
    } else if j == 0 {
      assert (n + Pow2(k)) % 2 == n % 2;
    } else {
      assert (n + Pow2(k)) / 2 == n / 2 + Pow2(k - 1);
      SetBitKeepsOthers(n / 2, k - 1, j - 1);
    }
  }

  // ---------------------------------------------------------------------
  // The decoded flags and the probe's result.

  /** The eight conditions of `vcgencmd get_throttled`, in the source's order. */
  datatype ThrottleFlags = ThrottleFlags(
    underVoltage: bool,             // 0x1
    frequencyCapped: bool,          // 0x2
    throttled: bool,                // 0x4
    softTempLimit: bool,            // 0x8
    underVoltageOccurred: bool,     // 0x10000
    frequencyCappedOccurred: bool,  // 0x20000
    throttledOccurred: bool,        // 0x40000
    softTempLimitOccurred: bool)    // 0x80000

  const NoFlags := ThrottleFlags(false, false, false, false, false, false, false, false)

  /** The `flags` dict: each entry is `bool(n & mask)`. */
  function DecodeFlags(n: nat): ThrottleFlags {
    ThrottleFlags(
      BitAnd(n, 0x1) != 0, BitAnd(n, 0x2) != 0, BitAnd(n, 0x4) != 0, BitAnd(n, 0x8) != 0,
      BitAnd(n, 0x10000) != 0, BitAnd(n, 0x20000) != 0, BitAnd(n, 0x40000) != 0, BitAnd(n, 0x80000) != 0)
  }

  /** The positions of the eight decoded bits. */
  predicate IsDecodedBit(k: nat) {
    k < 4 || 16 <= k < 20
  }

  /** Each flag is exactly one bit of the value: bits 0-3 and 16-19. */
  lemma FlagsAreBits(n: nat)
    ensures DecodeFlags(n) == ThrottleFlags(Bit(n, 0), Bit(n, 1), Bit(n, 2), Bit(n, 3),
                                            Bit(n, 16), Bit(n, 17), Bit(n, 18), Bit(n, 19))
  {
    assert Pow2(0) == 0x1 && Pow2(1) == 0x2 && Pow2(2) == 0x4 && Pow2(3) == 0x8;
    assert Pow2(16) == 0x10000 && Pow2(17) == 0x20000 && Pow2(18) == 0x40000 && Pow2(19) == 0x80000;
    AndSingleBit(n, 0); AndSingleBit(n, 1); AndSingleBit(n, 2); AndSingleBit(n, 3);
    AndSingleBit(n, 16); AndSingleBit(n, 17); AndSingleBit(n, 18); AndSingleBit(n, 19);
  }

  /** No bit outside the eight decoded ones affects any flag. */
  lemma OtherBitsIgnored(n: nat, k: nat)
    requires !IsDecodedBit(k) && !Bit(n, k)
    ensures DecodeFlags(n + Pow2(k)) == DecodeFlags(n)
  {
    FlagsAreBits(n);
    FlagsAreBits(n + Pow2(k));
    SetBitKeepsOthers(n, k, 0); SetBitKeepsOthers(n, k, 1);
    SetBitKeepsOthers(n, k, 2); SetBitKeepsOthers(n, k, 3);
    SetBitKeepsOthers(n, k, 16); SetBitKeepsOthers(n, k, 17);
    SetBitKeepsOthers(n, k, 18); SetBitKeepsOthers(n, k, 19);
  }

  datatype VoltageStatus = Ok | Warning | NotAvailable

  /** The string the source puts in `status`. */
  function StatusText(s: VoltageStatus): string {
    match s
    case Ok => "OK"
    case Warning => "WARNING"
    case NotAvailable => "N/A"
  }

  /** The dict `get_throttle_status` returns; an absent key is `None`. */
  datatype VoltageInfo = VoltageInfo(
    raw: string,
    hexValue: Option<string>,
    flags: Option<ThrottleFlags>,
    status: Option<VoltageStatus>,
    available: bool)

  /** `{"raw": "N/A", "available": False, "status": "N/A"}` */
  const VoltageUnavailable := VoltageInfo("N/A", None, None, Some(NotAvailable), false)

  /** The value in the tool's (stripped) output: the text after the first
      `=`, read as hex; absent when there is no `=` or it is not hex. */
  function ThrottledValue(output: string): (r: Option<nat>)
    ensures r.Some? <==> '=' in output && ParseHex(SecondField(output, '=').value).Some?
    ensures r.Some? ==> r == ParseHex(SecondField(output, '=').value)
  {
    match SecondField(output, '=')
    case None => None
    case Some(h) => ParseHex(h)
  }

  /** `get_throttle_status`, given what running `vcgencmd get_throttled` gave. */
  function ThrottleStatus(cmd: Command): (v: VoltageInfo)
    ensures v.available <==> cmd.Completed? && cmd.returnCode == 0
    ensures !v.available ==> v == VoltageUnavailable
    ensures v.available ==> v.raw == Strip(cmd.stdout)
    ensures v.available ==> (v.status.Some? <==> ThrottledValue(v.raw).Some?)
    ensures v.available && v.status.None? ==> v.hexValue.None? && v.flags.None?
    ensures v.available && v.status.Some? ==>
      var n := ThrottledValue(v.raw).value;
      && v.hexValue == SecondField(v.raw, '=')
      && v.flags == Some(DecodeFlags(n))
      && (v.status == Some(Ok) <==> n == 0)
      && (v.status == Some(Ok) || v.status == Some(Warning))
  {
    match cmd
    case Completed(code, stdout) =>
      if code == 0 then
        var output := Strip(stdout);
        if '=' in output then
          var hex := Split(output, '=')[1];
          match ParseHex(hex)
          case Some(n) =>
            VoltageInfo(output, Some(hex), Some(DecodeFlags(n)), Some(if n == 0 then Ok else Warning), true)
          case None => VoltageInfo(output, None, None, None, true)
        else VoltageInfo(output, None, None, None, true)
      else VoltageUnavailable
    case TimedOut => VoltageUnavailable
    case NotFound => VoltageUnavailable
  }

  /** Once the stripped output's second `=`-field parses as `n`, the probe
      reports `n`'s flags and status. */
  lemma DecodedOutput(stdout: string, h: string, n: nat)
    requires SecondField(Strip(stdout), '=') == Some(h) && ParseHex(h) == Some(n)
    ensures ThrottleStatus(Completed(0, stdout)) ==
      VoltageInfo(Strip(stdout), Some(h), Some(DecodeFlags(n)), Some(if n == 0 then Ok else Warning), true)
  {
  }

  /** A `0x` numeral holds no `=`. */
  lemma NoEqualsInNumeral(digits: string)
    requires AllHexDigits(digits)
    ensures '=' !in "0x" + digits
  {
    var h := "0x" + digits;
    forall i | 0 <= i < |h|
      ensures h[i] != '='
    {
      if i >= 2 {
        assert h[i] == digits[i - 2];
      }
    }
  }

  /** What `vcgencmd get_throttled` prints for the numeral `h`. */
  function ToolLine(h: string): string {
    "throttled=" + h + "\n"
  }

  /** Whatever hex numeral follows `throttled=` in the tool's line (with its
      final newline) is what the probe decodes. */
  lemma ToolLineDecodes(h: string, n: nat)
    requires ParseHex(h) == Some(n) && '=' !in h
    ensures ThrottleStatus(Completed(0, ToolLine(h))) ==
      VoltageInfo("throttled=" + h, Some(h), Some(DecodeFlags(n)), Some(if n == 0 then Ok else Warning), true)
  {
    var out := "throttled=" + h;
    assert h[|h| - 1] == WithoutHexPrefix(h)[|WithoutHexPrefix(h)| - 1];
    assert out[|out| - 1] == h[|h| - 1];
    StripTrailingSpace(out, "\n");
    assert '=' !in "throttled";
    assert out == "throttled" + ['='] + h + [];
    SecondFieldBetween("throttled", h, [], '=');
    DecodedOutput(out + "\n", h, n);
  }

  /** What the tool prints for value `n`, `throttled=0x<hex>` and a newline,
      is decoded to `n`'s flags, with `OK` exactly when `n` is zero. */
  lemma ThrottleStatusDecodes(n: nat)
    ensures ThrottleStatus(Completed(0, ToolLine("0x" + ToHex(n)))) ==
      VoltageInfo("throttled=" + ("0x" + ToHex(n)), Some("0x" + ToHex(n)), Some(DecodeFlags(n)),
                  Some(if n == 0 then Ok else Warning), true)
  {
    var h := "0x" + ToHex(n);
    NoEqualsInNumeral(ToHex(n));
    ParseHexToHex(n);
    ToolLineDecodes(h, n);
  }

  lemma HexOf0x100()
    ensures ParseHex("0x100") == Some(0x100)
  {
    assert ToHex(0x100) == "100";
    ParseHexToHex(0x100);
    assert "0x" + ToHex(0x100) == "0x100";
  }

  /** Appending a digit multiplies the value by 16 and adds the digit. */
  lemma DigitsValueSnoc(s: string, c: char)
    requires AllHexDigits(s) && IsHexDigit(c)
    ensures AllHexDigits(s + [c]) && DigitsValue(s + [c]) == 16 * DigitsValue(s) + DigitValue(c)
  {
    assert (s + [c])[..|s|] == s;
  }

  lemma HexOf0x50005()
    ensures ParseHex("0x50005") == Some(0x50005)
  {
    assert WithoutHexPrefix("0x50005") == "50005";
    DigitsValueSnoc("5", '0');
    assert "5" + ['0'] == "50";
    DigitsValueSnoc("50", '0');
    assert "50" + ['0'] == "500";
    DigitsValueSnoc("500", '0');
    assert "500" + ['0'] == "5000";
    DigitsValueSnoc("5000", '5');
    assert "5000" + ['5'] == "50005";
  }

  /** The bits of `a * 2^k + b`, with `b` below `2^k`, from `k` on are
      those of `a`. */
  lemma {:induction false} HighBits(a: nat, b: nat, k: nat, j: nat)
    requires b < Pow2(k)
    ensures Bit(a * Pow2(k) + b, k + j) == Bit(a, j)
    decreases k
  {
    if k > 0 {
      assert a * Pow2(k) == 2 * (a * Pow2(k - 1));
      assert (a * Pow2(k) + b) / 2 == a * Pow2(k - 1) + b / 2;
      HighBits(a, b / 2, k - 1, j);
    }
  }

  /** ... and the bits below `k` are those of `b`. */
  lemma {:induction false} LowBits(a: nat, b: nat, k: nat, j: nat)
    requires b < Pow2(k) && j < k
    ensures Bit(a * Pow2(k) + b, j) == Bit(b, j)
    decreases j
  {
    assert a * Pow2(k) == 2 * (a * Pow2(k - 1));
    if j > 0 {
      assert (a * Pow2(k) + b) / 2 == a * Pow2(k - 1) + b / 2;
      LowBits(a, b / 2, k - 1, j - 1);
    }
  }

  /** A value with only undecoded bits set, such as 0x100, is a WARNING with
      every flag false. */
  lemma UndecodedBitsWarn()
    ensures ThrottleStatus(Completed(0, ToolLine("0x100"))) ==
      VoltageInfo("throttled=0x100", Some("0x100"), Some(NoFlags), Some(Warning), true)
  {
    HexOf0x100();
    ToolLineDecodes("0x100", 0x100);
    assert "throttled=" + "0x100" == "throttled=0x100";
    Flags0x100(0x100);
  }

  lemma Flags0x100(n: nat)
    requires n == 0x100
    ensures DecodeFlags(n) == NoFlags
  {
    BitOfZero(8);
    OtherBitsIgnored(0, 8);
    assert Pow2(8) == n;
  }

  /** The documented example 0x50005: bits 0, 2, 16 and 18 are set. */
  lemma Example0x50005()
    ensures ThrottleStatus(Completed(0, ToolLine("0x50005"))).flags ==
      Some(ThrottleFlags(true, false, true, false, true, false, true, false))
    ensures ThrottleStatus(Completed(0, ToolLine("0x50005"))).status == Some(Warning)
  {
    HexOf0x50005();
    ToolLineDecodes("0x50005", 0x50005);
    Flags0x50005(0x50005);
  }

  /** Bit `16 + j` of `a * 0x10000 + b`, with `b` below `0x10000`, is bit `j`
      of `a`. */
  lemma HighBitOfWord(a: nat, b: nat, j: nat)
    requires b < 0x10000
    ensures Bit(a * 0x10000 + b, 16 + j) == Bit(a, j)
  {
    Pow2Of16();
    HighBits(a, b, 16, j);
  }

  /** Bit `j` of `a * 0x10000 + b`, for `j` below 16, is bit `j` of `b`. */
  lemma LowBitOfWord(a: nat, b: nat, j: nat)
    requires b < 0x10000 && j < 16
    ensures Bit(a * 0x10000 + b, j) == Bit(b, j)
  {
    Pow2Of16();
    LowBits(a, b, 16, j);
  }

  /** A word `a * 0x10000 + b` with `a` and `b` below 16 reports the bits of
      `b` as the current flags and those of `a` as the latched ones. */
  lemma SplitWordFlags(a: nat, b: nat, n: nat)
    requires a < 16 && b < 16 && n == a * 0x10000 + b
    ensures DecodeFlags(n) == ThrottleFlags(Bit(b, 0), Bit(b, 1), Bit(b, 2), Bit(b, 3),
                                            Bit(a, 0), Bit(a, 1), Bit(a, 2), Bit(a, 3))
  {
    FlagsAreBits(n);
    HighBitOfWord(a, b, 0); HighBitOfWord(a, b, 1); HighBitOfWord(a, b, 2); HighBitOfWord(a, b, 3);
    LowBitOfWord(a, b, 0); LowBitOfWord(a, b, 1); LowBitOfWord(a, b, 2); LowBitOfWord(a, b, 3);
  }

  lemma {:induction false} Pow2Add(a: nat, b: nat)
    ensures Pow2(a + b) == Pow2(a) * Pow2(b)
    decreases a
  {
    if a > 0 {
      Pow2Add(a - 1, b);
    }
  }

  lemma Pow2Of16()
    ensures Pow2(16) == 0x10000
  {
    assert Pow2(4) == 16;
    Pow2Add(4, 4);
    Pow2Add(8, 8);
  }

  lemma Flags0x50005(n: nat)
    requires n == 0x50005
    ensures DecodeFlags(n) == ThrottleFlags(true, false, true, false, true, false, true, false)
  {
    SplitWordFlags(5, 5, n);
  }

  /** The documented example 0x0: no flag, status OK. */
  lemma Example0x0()
    ensures ThrottleStatus(Completed(0, ToolLine("0x0"))).flags == Some(NoFlags)
    ensures ThrottleStatus(Completed(0, ToolLine("0x0"))).status == Some(Ok)
  {
    assert ParseHex("0x0") == Some(0);
    ToolLineDecodes("0x0", 0);
  }

  /** Output without `=` keeps only `raw` and `available`: no `status`,
      `hex_value` or `flags`. */
  lemma NoEqualsLacksStatus(out: string)
    requires '=' !in Strip(out)
    ensures ThrottleStatus(Completed(0, out)) == VoltageInfo(Strip(out), None, None, None, true)
  {
  }
}
