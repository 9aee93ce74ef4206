# Identity, topic and configuration-validation layer of the ESP32 temperature monitor

This project is a Dafny model of the three hardware-independent C modules of
the temperature monitor firmware, with proofs about them:

- **Configuration validation** (`config_utils`). It range-checks the read
  and publish intervals and reports the value clamped to the nearest bound.
  It range-checks the sensor resolution. It checks the friendly name, the
  MQTT broker URI and the WiFi SSID for NULL, length and content, in the
  order the C code uses. It also tests a string for printable ASCII and maps
  a result code to its message.
- **NVS key codec** (`nvs_utils`). It derives the 10-character key
  `s_xxxxxxxx` from bytes 4..7 of an 8-byte sensor ROM address. It validates
  flash-store keys, gives the maximum value length for each key prefix, and
  recognises sensor keys and parses them back into four bytes.
- **MQTT naming** (`mqtt_utils`). It builds the state, status and Home
  Assistant discovery topics and the entity unique id into a caller buffer of
  bounded capacity. Each builder returns the length written, or -1 when an
  argument is NULL or the result would not fit. It also validates a 16-digit
  hex sensor id.

How the model represents C:

- A C string is a `CStr`: a `seq<char>` whose characters are the bytes
  0x01..0xFF that come before the terminator. So `strlen` is `|s|`.
- A pointer that may be NULL is an `Option` for inputs. For buffers and
  out-pointers the callee writes through, it is a nullable array (`array?`).
- `isalnum` and `isxdigit` follow the C locale: `[A-Za-z0-9]` and
  `[0-9A-Fa-f]`.
- `config_is_printable_ascii` compares a signed `char`. `SignedChar` makes
  that explicit, so bytes 0x80..0xFF are rejected.
- `WriteIfFits` models `snprintf` together with the callers' check
  `len < 0 || len >= buf_len`. It includes the negative return for output
  longer than `INT_MAX`.

Modules:

- `ctext.dfy`: the shared C text primitives.
- `config_utils.dfy`, `nvs_utils.dfy`, `mqtt_utils.dfy`: one module per C
  source file.
- `storage_limits.dfy`: lemmas relating the configuration limits to the
  value lengths of the storage keys those values are kept under.

Where the header comments and the code disagree, the model follows the code:

- `main/config_utils.h:83` mentions only `mqtt://` and `mqtts://`, but
  `test/config_utils.c:102-105` also accepts `ws://` and `wss://`.
- `test/nvs_utils.h:28` asks for a 16-byte key buffer, but
  `test/nvs_utils.c:18` needs only 11 bytes.
- `test/nvs_utils.h:24` calls the sensor key unique. `NvsUtils.SensorKeyCollision`
  proves the opposite: two addresses get the same key exactly when their bytes
  4..7 agree. The model keeps this truncation, which matches the keys already
  stored on devices.

## Model

| member | source | states |
|---|---|---|
| `CText.HexValue` | test/nvs_utils.c:127 | the value `sscanf("%x")` reads from one hex digit of either case is below 16 |
| `CText.HexDigit` | test/nvs_utils.c:24-25 | the lower-case digit `%x` writes for a nibble is a hex digit that reads back as that nibble and is never upper case |
| `CText.Hex2` | test/nvs_utils.c:24-25 | `%02x` of a byte is two hex digits, high nibble first, which read back as 16*hi+lo = the byte |
| `CText.WriteIfFits` | main/mqtt_utils.c:18-24 | snprintf plus the length check: returns the length iff the output and its terminator fit in `buf_len` and the length fits an `int`, else -1; on success the buffer holds the output, then NUL, then its old contents |
| `ConfigUtils.Code` | main/config_utils.h:35-44 | the eight enumerators have codes 0..7, and only `CONFIG_VALID` is 0 |
| `ConfigUtils.CheckInterval` | test/config_utils.c:10-28 | below the range gives TooLow, above gives TooHigh, inside gives Valid; the clamped value lies in the range, is the range point nearest the input, and equals the input exactly when the outcome is Valid |
| `ConfigUtils.ClampIdempotent` | test/config_utils.c:13-21 | checking a clamped value again gives Valid with the same value |
| `ConfigUtils.ValidateInterval` | test/config_utils.c:10-28 | the outcome is `CheckInterval`'s whether or not the out-pointer is NULL; a non-NULL out-pointer receives the clamped value and nothing else changes |
| `ConfigUtils.ValidateReadInterval` | test/config_utils.c:10-28 | the interval rule over [1000, 300000] ms, with the optional clamped output |
| `ConfigUtils.ValidatePublishInterval` | test/config_utils.c:30-48 | the interval rule over [5000, 600000] ms, with the optional clamped output |
| `ConfigUtils.ValidateResolution` | test/config_utils.c:50-59 | Valid iff 9 <= bits <= 12, TooLow iff below 9, TooHigh iff above 12 |
| `ConfigUtils.SignedChar` | test/config_utils.c:139 | a plain `char` compares as a value in [-128, 127] |
| `ConfigUtils.IsPrintableAscii` | test/config_utils.c:131-145 | the pointer walk returns true iff the string is non-NULL and every byte before its terminator is in [0x20, 0x7E] (empty gives true, NULL gives false) |
| `ConfigUtils.ValidateFriendlyName` | test/config_utils.c:61-83 | each outcome holds exactly under its condition in the order NULL, empty, longer than 31, non-printable, else Valid |
| `ConfigUtils.FriendlyNameLengthFirst` | test/config_utils.c:73-79 | a 40-byte name with a newline reports TooLong, not InvalidChars |
| `ConfigUtils.FriendlyNameExamples` | test/config_utils.c:61-83 | the empty name is TooShort; `Test\n` and a name starting with byte 0x80 are InvalidChars |
| `ConfigUtils.ValidateMqttUri` | test/config_utils.c:85-110 | NULL, empty and over-127 URIs are rejected first; otherwise Valid iff the URI starts byte for byte with `mqtt://`, `mqtts://`, `ws://` or `wss://`, else InvalidFormat |
| `ConfigUtils.BrokerUriExamples` | test/config_utils.c:102-105 | `http://broker.com` is InvalidFormat and `wss://broker.local:9001` is Valid |
| `ConfigUtils.ValidateWifiSsid` | test/config_utils.c:112-129 | NULL gives NullInput, empty gives TooShort, over 31 gives TooLong; every other string is Valid, whatever its bytes |
| `ConfigUtils.ErrorStr` | test/config_utils.c:147-160 | total over all integers; the message is "Unknown error" exactly for values outside 0..7 |
| `ConfigUtils.ErrorStrDistinguishes` | test/config_utils.c:147-160 | distinct outcomes have distinct messages, none of them "Unknown error" |
| `NvsUtils.ValidateKey` | test/nvs_utils.c:34-56 | true iff the key is non-NULL, 1..15 characters long, and every character is in `[A-Za-z0-9_]` |
| `NvsUtils.IsSensorKey` | test/nvs_utils.c:89-112 | true iff the key is non-NULL, exactly 10 characters, starts with `s_`, and characters 2..9 are hex digits of either case |
| `NvsUtils.SensorKeyFormatIsValidKey` | test/nvs_utils.c:89-112 | every sensor key is also a valid store key |
| `NvsUtils.MaxValueLen` | test/nvs_utils.c:58-87 | 0 iff the key is NULL or invalid; otherwise 32 for `s_` keys and `wifi_` keys containing `ssid`, 128 for `mqtt_` keys containing `uri`, 64 for the other `mqtt_` and `wifi_` keys, 256 for all other keys; always one of 0, 32, 64, 128, 256 |
| `NvsUtils.PrefixesExclusive` | test/nvs_utils.c:64-86 | no key starts with two of `s_`, `mqtt_`, `wifi_`, so the order of the prefix tests does not matter |
| `NvsUtils.MaxValueLenExamples` | test/nvs_utils.c:70-74 | `mqtt_user` gets 64 and `invalid-key` gets 0 |
| `NvsUtils.SensorKey` | test/nvs_utils.c:24-25 | the generated key is 10 characters and has the sensor-key shape |
| `NvsUtils.DecodeSensorKey` | test/nvs_utils.c:125-131 | a sensor key spells exactly four bytes |
| `NvsUtils.GenerateSensorKey` | test/nvs_utils.c:11-32 | -1 and nothing written when the address or buffer is NULL or the buffer is under 11 bytes; otherwise 0, with the buffer holding `s_` plus `%02x` of address bytes 4..7, then NUL, and the rest untouched |
| `NvsUtils.ParseSensorKey` | test/nvs_utils.c:114-134 | -1 and output untouched unless the key and output are non-NULL and the key is a sensor key; otherwise 0, with the four output bytes decoded from hex pairs left to right |
| `NvsUtils.SensorKeyRoundTrip` | test/nvs_utils.c:22-31 | for every 8-byte address, parsing the generated key succeeds and gives exactly bytes 4..7 |
| `NvsUtils.SensorKeyCollision` | test/nvs_utils.c:22-25 | two addresses get the same key iff their bytes 4..7 agree |
| `NvsUtils.SensorKeyCanonical` | test/nvs_utils.c:114-134 | a lower-case sensor key is exactly the key generated from the bytes it spells, with any first four address bytes |
| `NvsUtils.Hex2OfDigits` | test/nvs_utils.c:24-25 | two lower-case hex digits are what `%02x` writes for the byte they spell |
| `NvsUtils.SensorKeyCaseInsensitive` | test/nvs_utils.c:106 | `s_AABBCCDD` and `s_aabbccdd` decode to the same bytes AA BB CC DD |
| `NvsUtils.SensorKeyAccepted` | test/nvs_utils.c:22-25 | a generated key is a valid store key of at most 15 characters, with a 32-byte value slot |
| `NvsUtils.SensorKeyExample` | test/nvs_utils.c:24-25 | address 28 FF 12 34 56 78 9A BC gives `s_56789abc` |
| `MqttUtils.StateTopic` | main/mqtt_utils.c:18 | `{base}/sensor/{id}/state` is len(base)+len(id)+14 bytes long |
| `MqttUtils.StatusTopic` | main/mqtt_utils.c:33 | `{base}/status` is len(base)+7 bytes long |
| `MqttUtils.DiscoveryTopic` | main/mqtt_utils.c:52-53 | `{prefix}/sensor/{base}_{id}/config` is len(prefix)+len(base)+len(id)+16 bytes long |
| `MqttUtils.UniqueId` | main/mqtt_utils.c:69 | `{base}_{id}` is len(base)+len(id)+1 bytes long |
| `MqttUtils.StateTopicSegments` | main/mqtt_utils.c:18 | segments are inserted verbatim: the state topic starts with the base, and the id can be read back at its fixed offset |
| `MqttUtils.StateTopicInjective` | main/mqtt_utils.c:18 | for one base, two ids give the same state topic iff they are equal |
| `MqttUtils.StatusTopicInjective` | main/mqtt_utils.c:33 | two bases give the same status topic iff they are equal |
| `MqttUtils.DiscoveryTopicInjective` | main/mqtt_utils.c:52-53 | for one prefix and base, two ids give the same discovery topic iff they are equal |
| `MqttUtils.UniqueIdInjective` | main/mqtt_utils.c:69 | for one base, two ids give the same unique id iff they are equal |
| `MqttUtils.StateTopicExample` | main/mqtt_utils.c:18-24 | `esp32-poe-temp` with `28FF123456789ABC` gives the expected topic, 44 bytes long |
| `MqttUtils.GenerateStateTopic` | main/mqtt_utils.c:11-25 | -1 and nothing written when an input is NULL; -1 when the topic and its NUL do not fit in `buf_len`; otherwise the topic's length, with the topic and NUL at the start of the buffer and the rest untouched |
| `MqttUtils.GenerateStatusTopic` | main/mqtt_utils.c:27-40 | the same contract for `{base}/status` |
| `MqttUtils.GenerateDiscoveryTopic` | main/mqtt_utils.c:42-60 | the same contract for `{prefix}/sensor/{base}_{id}/config` |
| `MqttUtils.GenerateUniqueId` | main/mqtt_utils.c:62-76 | the same contract for `{base}_{id}` |
| `MqttUtils.FormatTemperature` | main/mqtt_utils.c:78-91 | -1 for a NULL buffer or text that does not fit; otherwise the length of the rendered text, which is written with its NUL |
| `MqttUtils.ValidateSensorId` | main/mqtt_utils.c:93-114 | true iff the id is non-NULL, exactly 16 characters, and all of them are hex digits of either case |
| `StorageLimits.FriendlyNameFitsSensorSlot` | main/config_utils.h:21 | a valid friendly name plus its NUL fits the 32-byte value slot of any sensor key (test/nvs_utils.c:64-66) |
| `StorageLimits.MqttUriFitsUriSlot` | main/config_utils.h:24 | a valid broker URI plus its NUL fits the 128-byte slot of `mqtt_uri` (test/nvs_utils.c:70-73) |
| `StorageLimits.MqttUriKeyLen` | test/nvs_utils.c:70-73 | `mqtt_uri` gets a 128-byte value slot |
| `StorageLimits.WifiSsidFitsSsidSlot` | main/config_utils.h:29 | a valid SSID plus its NUL fits the 32-byte slot of `wifi_ssid` (test/nvs_utils.c:78-81) |
| `StorageLimits.WifiSsidKeyLen` | test/nvs_utils.c:78-81 | `wifi_ssid` gets a 32-byte value slot |

## Left out

- `mqtt_format_temperature`'s `%.2f` rendering (main/mqtt_utils.c:84). That is
  float-to-decimal rounding inside `snprintf`, so the rendered text is a
  parameter of `MqttUtils.FormatTemperature`. Only the NULL-buffer and
  capacity behaviour is modelled.
- `CText.WriteIfFits`: the truncated prefix that `snprintf` leaves in the
  buffer when the output does not fit is not modelled. The model writes
  nothing on that path and its contract promises nothing about the buffer
  there. Callers must not rely on those contents.
- The builders' and codec's string inputs are values, so the model cannot
  express a C caller passing an output buffer that overlaps an input string.
- `buf_len` / `key_len` larger than the real buffer is undefined behaviour in
  C. The methods require `bufLen <= buf.Length` instead of modelling it.
- `nvs_parse_sensor_key`'s `sscanf` failure branch (test/nvs_utils.c:127-129)
  cannot be reached after `nvs_is_sensor_key` succeeds, so it is not a branch
  of the model.
- `config_validate_friendly_name` and `nvs_get_max_value_len` call the C
  checkers `config_is_printable_ascii` and `nvs_validate_key`. As Dafny
  functions, they use the predicates those methods are proved against
  (`AllPrintable`, `ValidKey`).
- `CONFIG_MQTT_USERNAME_MAX_LEN`, `CONFIG_MQTT_PASSWORD_MAX_LEN` and
  `CONFIG_WIFI_PASSWORD_MAX_LEN` (main/config_utils.h:25-30) are declared but
  no modelled function uses them. The same is true of the `scfg_` prefix
  (test/nvs_utils.h:19); `MaxValueLen` gives such keys the 256 default.
- main/web_server.c is left out: HTTP handlers, JSON handling, the embedded
  page and server start/stop are I/O and foreign-library glue.
- main/nvs_storage.h, main/wifi_manager.h, main/ethernet_manager.h and
  main/web_server.h are declarations without bodies (flash storage and link
  management), and are not part of this model. The same holds for the sensor
  bus, OTA and MQTT client code.
- Callers that pass a wider integer to `config_validate_resolution` have it
  truncated to `uint8_t` at the call site. The model starts from the
  `uint8_t` value.
