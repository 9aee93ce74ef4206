/**
 * Storage keys: the 10-character sensor key derived from the last four
 * bytes of a sensor ROM address, the general key syntax of the flash
 * key-value store, the value length allowed per key prefix, and parsing a
 * sensor key back into its four address bytes.
 */
module NvsUtils {
  import opened CText

  /** Keys are at most 15 characters, terminator excluded. */
  const KeyMaxLen: nat := 15

  const SensorPrefix: CStr := "s_"
  const MqttPrefix: CStr := "mqtt_"
  const WifiPrefix: CStr := "wifi_"
  /** Declared for sensor settings; `MaxValueLen` gives such keys the default. */
  const SensorCfgPrefix: CStr := "scfg_"

  /** A sensor key is `"s_"` and eight hex digits; with its terminator it needs 11 bytes. */
  const SensorKeyLen: nat := 10
  const SensorKeyBufLen: nat := 11

  // ---------------------------------------------------------------------
  // Key syntax

  predicate IsKeyChar(c: char)
  {
    IsAlnum(c) || c == '_'
  }

  /** A key the store accepts: 1 to 15 characters from `[A-Za-z0-9_]`. */
  predicate ValidKey(k: seq<char>)
  {
    1 <= |k| <= KeyMaxLen && forall i | 0 <= i < |k| :: IsKeyChar(k[i])
  }

  /** The shape of a sensor key: `"s_"` followed by eight hex digits of either case. */
  predicate IsSensorKeyFormat(k: seq<char>)
  {
    |k| == SensorKeyLen && StartsWith(k, SensorPrefix)
    && forall i | 2 <= i < SensorKeyLen :: IsXDigit(k[i])
  }

  /** `nvs_validate_key`: false for NULL, else true iff the key is `ValidKey`. */
  method ValidateKey(key: Option<CStr>) returns (ok: bool)
    ensures ok <==> key.Some? && ValidKey(key.value)
  {
    if key.None? {
      return false;
    }
    var k := key.value;
    var len := |k|;
    if len == 0 || len > KeyMaxLen {
      return false;
    }
    var i := 0;
    while i < len
      invariant 0 <= i <= len
      invariant forall j | 0 <= j < i :: IsKeyChar(k[j])
    {
      var c := k[i];
      if !IsAlnum(c) && c != '_' {
        return false;
      }
      i := i + 1;
    }
    return true;
  }

  /** `nvs_is_sensor_key`: false for NULL, else true iff the key has the sensor-key shape. */
  method IsSensorKey(key: Option<CStr>) returns (ok: bool)
    ensures ok <==> key.Some? && IsSensorKeyFormat(key.value)
  {
    if key.None? {
      return false;
    }
    var k := key.value;
    if |k| != SensorKeyLen {
      return false;
    }
    if !StartsWith(k, SensorPrefix) {
      return false;
    }
    var i := 2;
    while i < SensorKeyLen
      invariant 2 <= i <= SensorKeyLen
      invariant forall j | 2 <= j < i :: IsXDigit(k[j])
    {
      if !IsXDigit(k[i]) {
        return false;
      }
      i := i + 1;
    }
    return true;
  }

  /** Every sensor key is also a valid general key. */
  lemma SensorKeyFormatIsValidKey(k: seq<char>)
    requires IsSensorKeyFormat(k)
    ensures ValidKey(k)
  {
    assert k[..2] == "s_";
    assert k[0] == 's' && k[1] == '_';
  }

  // ---------------------------------------------------------------------
  // Value lengths

  /**
   * `nvs_get_max_value_len`: 0 for a NULL or invalid key; otherwise, by
   * prefix in this order, `s_` 32, `mqtt_` 128 when the key contains
   * `uri` else 64, `wifi_` 32 when it contains `ssid` else 64, and 256
   * for any other key. The three prefixes exclude each other, so the
   * order of the tests does not change the result.
   */
  function MaxValueLen(key: Option<CStr>): (n: nat)
    ensures n in {0, 32, 64, 128, 256}
    ensures n == 0 <==> !(key.Some? && ValidKey(key.value))
    ensures n == 32 <==>
              key.Some? && ValidKey(key.value)
              && (StartsWith(key.value, SensorPrefix)
                  || (StartsWith(key.value, WifiPrefix) && Contains(key.value, "ssid")))
    ensures n == 64 <==>
              key.Some? && ValidKey(key.value)
              && ((StartsWith(key.value, MqttPrefix) && !Contains(key.value, "uri"))
                  || (StartsWith(key.value, WifiPrefix) && !Contains(key.value, "ssid")))
    ensures n == 128 <==>
              key.Some? && ValidKey(key.value)
              && StartsWith(key.value, MqttPrefix) && Contains(key.value, "uri")
    ensures n == 256 <==>
              key.Some? && ValidKey(key.value)
              && !StartsWith(key.value, SensorPrefix) && !StartsWith(key.value, MqttPrefix)
              && !StartsWith(key.value, WifiPrefix)
  {
    if key.None? || !ValidKey(key.value) then 0
    else
      var k := key.value;
      PrefixesExclusive(k);
      if StartsWith(k, SensorPrefix) then 32
      else if StartsWith(k, MqttPrefix) then (if Contains(k, "uri") then 128 else 64)
      else if StartsWith(k, WifiPrefix) then (if Contains(k, "ssid") then 32 else 64)
      else 256
  }

  /** No key starts with two of the prefixes `s_`, `mqtt_` and `wifi_`. */
  lemma PrefixesExclusive(k: seq<char>)
    ensures !(StartsWith(k, SensorPrefix) && StartsWith(k, MqttPrefix))
    ensures !(StartsWith(k, SensorPrefix) && StartsWith(k, WifiPrefix))
    ensures !(StartsWith(k, MqttPrefix) && StartsWith(k, WifiPrefix))
  {
    if StartsWith(k, SensorPrefix) {
      assert k[0] == SensorPrefix[0];
    }
    if StartsWith(k, MqttPrefix) {
      assert k[0] == MqttPrefix[0];
    }
  }

  // ---------------------------------------------------------------------
  // Sensor keys

  /** The key `"s_"` + `%02x` of address bytes 4, 5, 6 and 7. */
  function SensorKey(address: seq<byte>): (key: CStr)
    requires |address| >= 8
    ensures |key| == SensorKeyLen
    ensures IsSensorKeyFormat(key)
  {
    SensorPrefix + Hex2(address[4]) + Hex2(address[5]) + Hex2(address[6]) + Hex2(address[7])
  }

  /**
   * The four bytes a sensor key spells, each read from a pair of hex
   * digits left to right, as `sscanf(key + 2 + 2 * i, "%02x")` reads them.
   */
  function DecodeSensorKey(key: seq<char>): (bytes: seq<byte>)
    requires IsSensorKeyFormat(key)
    ensures |bytes| == 4
  {
    seq(4, i requires 0 <= i < 4 => 16 * HexValue(key[2 + 2 * i]) + HexValue(key[3 + 2 * i]))
  }

  /**
   * `nvs_generate_sensor_key`: -1 with nothing written when the address
   * or the key buffer is NULL or the buffer is shorter than 11 bytes;
   * otherwise 0 with the buffer holding `SensorKey(address)` and its
   * terminator, the bytes after it untouched.
   */
  method GenerateSensorKey(address: array?<byte>, key: array?<char>, keyLen: nat) returns (rc: int)
    requires address != null ==> address.Length >= 8
    requires key != null ==> keyLen <= key.Length
    modifies key
    ensures rc == 0 || rc == -1
    ensures rc == 0 <==> address != null && key != null && keyLen >= SensorKeyBufLen
    ensures rc == -1 && key != null ==> unchanged(key)
    ensures rc == 0 ==>
              key[..] == SensorKey(address[..]) + ['\0'] + old(key[SensorKeyBufLen..])
  {
    if address == null || key == null {
      return -1;
    }
    if keyLen < SensorKeyBufLen {
      return -1;
    }
    var len := WriteIfFits(key, keyLen, SensorKey(address[..]));
    rc := if len == -1 then -1 else 0;
  }

  /**
   * `nvs_parse_sensor_key`: -1 with nothing written unless the key and the
   * output are both non-NULL and the key is a sensor key; otherwise 0
   * with the first four output bytes holding the decoded address bytes.
   */
  method ParseSensorKey(key: Option<CStr>, partialAddr: array?<byte>) returns (rc: int)
    requires partialAddr != null ==> partialAddr.Length >= 4
    modifies partialAddr
    ensures rc == 0 || rc == -1
    ensures rc == 0 <==> key.Some? && partialAddr != null && IsSensorKeyFormat(key.value)
    ensures rc == -1 && partialAddr != null ==> unchanged(partialAddr)
    ensures rc == 0 ==>
              partialAddr[..] == DecodeSensorKey(key.value) + old(partialAddr[4..])
  {
    if key.None? || partialAddr == null {
      return -1;
    }
    var isSensorKey := IsSensorKey(key);
    if !isSensorKey {
      return -1;
    }
    var k := key.value;
    ghost var decoded := DecodeSensorKey(k);
    for i := 0 to 4
      invariant partialAddr[..i] == decoded[..i]
      invariant partialAddr[i..] == old(partialAddr[i..])
    {
      partialAddr[i] := 16 * HexValue(k[2 + 2 * i]) + HexValue(k[3 + 2 * i]);
    }
    assert partialAddr[..] == partialAddr[..4] + partialAddr[4..];
    return 0;
  }

  /** Parsing a generated key gives back exactly bytes 4..7 of the address. */
  lemma {:induction false} SensorKeyRoundTrip(address: seq<byte>)
    requires |address| == 8
    ensures IsSensorKeyFormat(SensorKey(address))
    ensures DecodeSensorKey(SensorKey(address)) == address[4..8]
  {
    var key := SensorKey(address);
    forall i | 0 <= i < 4
      ensures DecodeSensorKey(key)[i] == address[4 + i]
    {
      var h := Hex2(address[4 + i]);
      assert key[2 + 2 * i] == h[0] && key[3 + 2 * i] == h[1];
    }
  }

  /**
   * Two addresses get the same key exactly when their bytes 4..7 agree:
   * the first four bytes are dropped, so addresses differing only there
   * collide.
   */
  lemma {:induction false} SensorKeyCollision(a: seq<byte>, b: seq<byte>)
    requires |a| == 8 && |b| == 8
    ensures SensorKey(a) == SensorKey(b) <==> a[4..] == b[4..]
  {
    if SensorKey(a) == SensorKey(b) {
      SensorKeyRoundTrip(a);
      SensorKeyRoundTrip(b);
    }
  }

  /**
   * The converse of the round trip: a sensor key written with lower-case
   * hex digits is exactly the key generated from the bytes it spells,
   * whatever the first four address bytes are.
   */
  lemma {:induction false} SensorKeyCanonical(key: seq<char>, high: seq<byte>)
    requires IsSensorKeyFormat(key) && |high| == 4
    requires forall i | 2 <= i < SensorKeyLen :: !('A' <= key[i] <= 'F')
    ensures SensorKey(high + DecodeSensorKey(key)) == key
  {
    var address := high + DecodeSensorKey(key);
    forall i | 0 <= i < 4
      ensures Hex2(address[4 + i]) == key[2 + 2 * i..4 + 2 * i]
    {
      Hex2OfDigits(key[2 + 2 * i], key[3 + 2 * i]);
    }
    assert key == key[..2] + key[2..4] + key[4..6] + key[6..8] + key[8..10];
  }

  /** Two lower-case hex digits are what `%02x` writes for the byte they spell. */
  lemma Hex2OfDigits(hi: char, lo: char)
    requires IsXDigit(hi) && !('A' <= hi <= 'F')
    requires IsXDigit(lo) && !('A' <= lo <= 'F')
    ensures Hex2(16 * HexValue(hi) + HexValue(lo)) == [hi, lo]
  {
    var b := 16 * HexValue(hi) + HexValue(lo);
    assert b / 16 == HexValue(hi) && b % 16 == HexValue(lo);
  }

  /** Upper- and lower-case spellings of a sensor key decode to the same bytes. */
  lemma SensorKeyCaseInsensitive()
    ensures DecodeSensorKey("s_AABBCCDD") == DecodeSensorKey("s_aabbccdd") == [0xAA, 0xBB, 0xCC, 0xDD]
  {
  }

  /** A generated key is a valid store key, within 15 characters, with 32-byte values. */
  lemma {:induction false} SensorKeyAccepted(address: seq<byte>)
    requires |address| == 8
    ensures ValidKey(SensorKey(address)) && |SensorKey(address)| <= KeyMaxLen
    ensures MaxValueLen(Some(SensorKey(address))) == 32
  {
    SensorKeyFormatIsValidKey(SensorKey(address));
  }

  /** The key of the unit tests' sample address 28 FF 12 34 56 78 9A BC. */
  lemma SensorKeyExample()
    ensures SensorKey([0x28, 0xFF, 0x12, 0x34, 0x56, 0x78, 0x9A, 0xBC]) == "s_56789abc"
  {
  }

  /** Credentials get 64 bytes; a key with a dash gets 0. */
  lemma MaxValueLenExamples()
    ensures MaxValueLen(Some("mqtt_user")) == 64
    ensures MaxValueLen(Some("invalid-key")) == 0
  {
    var k: CStr := "mqtt_user";
    forall i | 0 <= i <= |k| - 3
      ensures !OccursAt(k, "uri", i)
    {
      assert k[i..i + 3][1] == k[i + 1] != 'r';
    }
    assert !IsKeyChar("invalid-key"[7]);
  }
}
