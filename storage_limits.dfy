/**
 * How the configuration limits line up with the value lengths of the
 * storage keys the values are kept under: every string the validator
 * accepts, with its terminator, fits the slot of its key.
 */
module StorageLimits {
  import opened CText
  import opened ConfigUtils
  import opened NvsUtils

  /** A valid friendly name fits the value slot of any sensor key. */
  lemma {:induction false} FriendlyNameFitsSensorSlot(name: CStr, key: CStr)
    requires ValidateFriendlyName(Some(name)) == Valid
    requires IsSensorKeyFormat(key)
    ensures |name| + 1 <= MaxValueLen(Some(key))
  {
    SensorKeyFormatIsValidKey(key);
  }

  /** A valid broker URI fits the value slot of `mqtt_uri`. */
  lemma {:induction false} MqttUriFitsUriSlot(uri: CStr)
    requires ValidateMqttUri(Some(uri)) == Valid
    ensures |uri| + 1 <= MaxValueLen(Some("mqtt_uri"))
  {
    MqttUriKeyLen();
  }

  lemma MqttUriKeyLen()
    ensures MaxValueLen(Some("mqtt_uri")) == 128
  {
    assert OccursAt("mqtt_uri", "uri", 5);
  }

  /** A valid SSID fits the value slot of `wifi_ssid`. */
  lemma {:induction false} WifiSsidFitsSsidSlot(ssid: CStr)
    requires ValidateWifiSsid(Some(ssid)) == Valid
    ensures |ssid| + 1 <= MaxValueLen(Some("wifi_ssid"))
  {
    WifiSsidKeyLen();
  }

  lemma WifiSsidKeyLen()
    ensures MaxValueLen(Some("wifi_ssid")) == 32
  {
    assert OccursAt("wifi_ssid", "ssid", 5);
  }
}
