/**
 * Configuration validation: range checks with clamping for the two polling
 * intervals, a range check for the sensor resolution, length and charset
 * checks for the friendly name, broker URI and WiFi SSID, and the text of
 * each result code.
 */
module ConfigUtils {
  import opened CText

  /** A `uint32_t`. */
  type uint32 = x: int | 0 <= x < 0x1_0000_0000

  const ReadIntervalMinMs: uint32 := 1000
  const ReadIntervalMaxMs: uint32 := 300000
  const PublishIntervalMinMs: uint32 := 5000
  const PublishIntervalMaxMs: uint32 := 600000
  const ResolutionMin: byte := 9
  const ResolutionMax: byte := 12
  const FriendlyNameMinLen: nat := 1
  const FriendlyNameMaxLen: nat := 31
  const MqttUriMaxLen: nat := 127
  const WifiSsidMaxLen: nat := 31

  /** `config_error_t`. */
  datatype ConfigError =
    | Valid
    | NullInput
    | TooLow
    | TooHigh
    | TooShort
    | TooLong
    | InvalidFormat
    | InvalidChars

  /** The integer value of each enumerator, in declaration order from 0. */
  function Code(e: ConfigError): (n: nat)
    ensures n < 8
    ensures e == Valid <==> n == 0
  {
    match e
    case Valid => 0
    case NullInput => 1
    case TooLow => 2
    case TooHigh => 3
    case TooShort => 4
    case TooLong => 5
    case InvalidFormat => 6
    case InvalidChars => 7
  }

  // ---------------------------------------------------------------------
  // Intervals

  /** Outcome of an interval check together with the clamped value. */
  datatype IntervalCheck = IntervalCheck(outcome: ConfigError, clamped: uint32)

  function Distance(a: int, b: int): nat
  {
    if a < b then b - a else a - b
  }

  /**
   * The rule shared by both interval validators: below the range is
   * TooLow, above it TooHigh, inside it Valid, and the clamped value is
   * the point of `[lo, hi]` nearest to the input.
   */
  function CheckInterval(ms: uint32, lo: uint32, hi: uint32): (r: IntervalCheck)
    requires lo <= hi
    ensures r.outcome in {Valid, TooLow, TooHigh}
    ensures r.outcome == TooLow <==> ms < lo
    ensures r.outcome == TooHigh <==> hi < ms
    ensures r.outcome == Valid <==> lo <= ms <= hi
    ensures lo <= r.clamped <= hi
    ensures forall v | lo <= v <= hi :: Distance(ms, r.clamped) <= Distance(ms, v)
    ensures r.outcome == Valid <==> r.clamped == ms
  {
    if ms < lo then IntervalCheck(TooLow, lo)
    else if ms > hi then IntervalCheck(TooHigh, hi)
    else IntervalCheck(Valid, ms)
  }

  /** Re-checking a clamped value yields Valid and the same value. */
  lemma ClampIdempotent(ms: uint32, lo: uint32, hi: uint32)
    requires lo <= hi
    ensures CheckInterval(CheckInterval(ms, lo, hi).clamped, lo, hi)
         == IntervalCheck(Valid, CheckInterval(ms, lo, hi).clamped)
  {
  }

  /**
   * Range-check `intervalMs` against `[lo, hi]` and, when the out-pointer
   * `clampedMs` is not NULL, store the clamped value in its first cell.
   * The outcome does not depend on whether the out-pointer is given.
   */
  method ValidateInterval(intervalMs: uint32, lo: uint32, hi: uint32, clampedMs: array?<uint32>)
      returns (result: ConfigError)
    requires lo <= hi
    requires clampedMs != null ==> clampedMs.Length >= 1
    modifies clampedMs
    ensures result == CheckInterval(intervalMs, lo, hi).outcome
    ensures clampedMs != null ==>
              clampedMs[..] == [CheckInterval(intervalMs, lo, hi).clamped] + old(clampedMs[1..])
  {
    result := Valid;
    var clamped := intervalMs;
    if intervalMs < lo {
      clamped := lo;
      result := TooLow;
    } else if intervalMs > hi {
      clamped := hi;
      result := TooHigh;
    }
    if clampedMs != null {
      clampedMs[0] := clamped;
    }
  }

  /** `config_validate_read_interval`: the interval rule over [1000, 300000] ms. */
  method ValidateReadInterval(intervalMs: uint32, clampedMs: array?<uint32>) returns (result: ConfigError)
    requires clampedMs != null ==> clampedMs.Length >= 1
    modifies clampedMs
    ensures result == CheckInterval(intervalMs, ReadIntervalMinMs, ReadIntervalMaxMs).outcome
    ensures clampedMs != null ==>
              clampedMs[..] == [CheckInterval(intervalMs, ReadIntervalMinMs, ReadIntervalMaxMs).clamped]
                               + old(clampedMs[1..])
  {
    result := ValidateInterval(intervalMs, ReadIntervalMinMs, ReadIntervalMaxMs, clampedMs);
  }

  /** `config_validate_publish_interval`: the interval rule over [5000, 600000] ms. */
  method ValidatePublishInterval(intervalMs: uint32, clampedMs: array?<uint32>) returns (result: ConfigError)
    requires clampedMs != null ==> clampedMs.Length >= 1
    modifies clampedMs
    ensures result == CheckInterval(intervalMs, PublishIntervalMinMs, PublishIntervalMaxMs).outcome
    ensures clampedMs != null ==>
              clampedMs[..] == [CheckInterval(intervalMs, PublishIntervalMinMs, PublishIntervalMaxMs).clamped]
                               + old(clampedMs[1..])
  {
    result := ValidateInterval(intervalMs, PublishIntervalMinMs, PublishIntervalMaxMs, clampedMs);
  }

  // ---------------------------------------------------------------------
  // Resolution

  /** `config_validate_resolution`: 9..12 bits; no clamped value. */
  function ValidateResolution(resolution: byte): (r: ConfigError)
    ensures r in {Valid, TooLow, TooHigh}
    ensures r == Valid <==> ResolutionMin <= resolution <= ResolutionMax
    ensures r == TooLow <==> resolution < ResolutionMin
    ensures r == TooHigh <==> ResolutionMax < resolution
  {
    if resolution < ResolutionMin then TooLow
    else if resolution > ResolutionMax then TooHigh
    else Valid
  }

  // ---------------------------------------------------------------------
  // Printable ASCII

  /**
   * The value C sees when it compares a plain `char`, which is signed on
   * the target: bytes 0x80..0xFF read as negative numbers.
   */
  function SignedChar(c: char): (v: int)
    requires c <= '\U{FF}'
    ensures -128 <= v < 128
  {
    if c as int >= 128 then c as int - 256 else c as int
  }

  /** A byte in [0x20, 0x7E]. */
  predicate IsPrintable(c: char)
  {
    ' ' <= c <= '~'
  }

  predicate AllPrintable(s: seq<char>)
  {
    forall i | 0 <= i < |s| :: IsPrintable(s[i])
  }

  /**
   * `config_is_printable_ascii`: false for NULL; otherwise walks the string
   * up to its terminator and is true iff every byte lies in [0x20, 0x7E].
   * Bytes at or above 0x80 are rejected because they compare as negative.
   */
  method IsPrintableAscii(str: Option<CStr>) returns (ok: bool)
    ensures ok <==> str.Some? && AllPrintable(str.value)
  {
    if str.None? {
      return false;
    }
    var mem := str.value + ['\0'];
    var p := 0;
    while mem[p] != '\0'
      invariant 0 <= p <= |str.value|
      invariant forall i | 0 <= i < p :: IsPrintable(str.value[i])
      decreases |str.value| - p
    {
      var c := SignedChar(mem[p]);
      if c < 32 || c > 126 {
        return false;
      }
      p := p + 1;
    }
    return true;
  }

  // ---------------------------------------------------------------------
  // Strings

  /**
   * `config_validate_friendly_name`. The checks run in the order NULL,
   * too short, too long, characters, so a name that is both too long and
   * unprintable reports TooLong.
   */
  function ValidateFriendlyName(name: Option<CStr>): (r: ConfigError)
    ensures r == NullInput <==> name.None?
    ensures r == TooShort <==> name == Some([])
    ensures r == TooLong <==> name.Some? && |name.value| > FriendlyNameMaxLen
    ensures r == InvalidChars <==>
              name.Some? && 1 <= |name.value| <= FriendlyNameMaxLen && !AllPrintable(name.value)
    ensures r == Valid <==>
              name.Some? && 1 <= |name.value| <= FriendlyNameMaxLen && AllPrintable(name.value)
  {
    if name.None? then NullInput
    else if |name.value| < FriendlyNameMinLen then TooShort
    else if |name.value| > FriendlyNameMaxLen then TooLong
    else if !AllPrintable(name.value) then InvalidChars
    else Valid
  }

  /** The broker URI schemes the validator accepts. */
  predicate HasBrokerScheme(uri: seq<char>)
  {
    StartsWith(uri, "mqtt://") || StartsWith(uri, "mqtts://")
    || StartsWith(uri, "ws://") || StartsWith(uri, "wss://")
  }

  /**
   * `config_validate_mqtt_uri`: NULL, empty and over-long URIs are rejected
   * first; only then must the URI begin, byte for byte, with one of
   * `mqtt://`, `mqtts://`, `ws://` or `wss://`.
   */
  function ValidateMqttUri(uri: Option<CStr>): (r: ConfigError)
    ensures r in {NullInput, TooShort, TooLong, InvalidFormat, Valid}
    ensures r == NullInput <==> uri.None?
    ensures r == TooShort <==> uri == Some([])
    ensures r == TooLong <==> uri.Some? && |uri.value| > MqttUriMaxLen
    ensures r == InvalidFormat <==>
              uri.Some? && 1 <= |uri.value| <= MqttUriMaxLen && !HasBrokerScheme(uri.value)
    ensures r == Valid <==>
              uri.Some? && |uri.value| <= MqttUriMaxLen && HasBrokerScheme(uri.value)
  {
    if uri.None? then NullInput
    else if |uri.value| == 0 then TooShort
    else if |uri.value| > MqttUriMaxLen then TooLong
    else if !HasBrokerScheme(uri.value) then InvalidFormat
    else Valid
  }

  /**
   * `config_validate_wifi_ssid`: only NULL and the length are checked; any
   * byte, control characters included, is allowed.
   */
  function ValidateWifiSsid(ssid: Option<CStr>): (r: ConfigError)
    ensures r in {NullInput, TooShort, TooLong, Valid}
    ensures r == NullInput <==> ssid.None?
    ensures r == TooShort <==> ssid == Some([])
    ensures r == TooLong <==> ssid.Some? && |ssid.value| > WifiSsidMaxLen
    ensures r == Valid <==> ssid.Some? && 1 <= |ssid.value| <= WifiSsidMaxLen
  {
    if ssid.None? then NullInput
    else if |ssid.value| == 0 then TooShort
    else if |ssid.value| > WifiSsidMaxLen then TooLong
    else Valid
  }

  // ---------------------------------------------------------------------
  // Messages

  const UnknownError: string := "Unknown error"

  /**
   * `config_error_str`: the message for each of the eight codes and
   * "Unknown error" for any other integer the enum variable may hold.
   */
  function ErrorStr(error: int): (msg: string)
    ensures msg == UnknownError <==> !(0 <= error < 8)
    ensures |msg| > 0
  {
    match error
    case 0 => "Valid"
    case 1 => "Null input"
    case 2 => "Value too low"
    case 3 => "Value too high"
    case 4 => "String too short"
    case 5 => "String too long"
    case 6 => "Invalid format"
    case 7 => "Invalid characters"
    case _ => UnknownError
  }

  /** Distinct outcomes have distinct messages, so the message names the outcome. */
  lemma ErrorStrDistinguishes(a: ConfigError, b: ConfigError)
    requires a != b
    ensures ErrorStr(Code(a)) != ErrorStr(Code(b))
    ensures ErrorStr(Code(a)) != UnknownError
  {
  }

  // ---------------------------------------------------------------------
  // Scenarios

  /** A name over 31 bytes reports TooLong even when it also holds a control byte. */
  lemma {:induction false} FriendlyNameLengthFirst(name: CStr)
    requires |name| == 40 && name[10] == '\n'
    ensures !AllPrintable(name)
    ensures ValidateFriendlyName(Some(name)) == TooLong
  {
    assert !IsPrintable(name[10]);
  }

  /** `http://` is refused and `wss://` accepted, byte for byte. */
  lemma BrokerUriExamples()
    ensures ValidateMqttUri(Some("http://broker.com")) == InvalidFormat
    ensures ValidateMqttUri(Some("wss://broker.local:9001")) == Valid
  {
    assert "http://broker.com"[0] != 'm' && "http://broker.com"[0] != 'w';
    assert StartsWith("wss://broker.local:9001", "wss://");
  }

  /** A newline and a byte above 0x7F both make a name InvalidChars. */
  lemma FriendlyNameExamples()
    ensures ValidateFriendlyName(Some("")) == TooShort
    ensures ValidateFriendlyName(Some("Test\n")) == InvalidChars
    ensures ValidateFriendlyName(Some("\U{80}Test")) == InvalidChars
  {
    assert !IsPrintable("Test\n"[4]);
    assert !IsPrintable("\U{80}Test"[0]);
  }
}
