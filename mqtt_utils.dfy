/**
 * MQTT naming: the state, status and Home Assistant discovery topics and
 * the entity unique id, each written into a caller buffer of bounded
 * capacity, and the check that a sensor id is 16 hex digits.
 */
module MqttUtils {
  import opened CText

  // ---------------------------------------------------------------------
  // Templates

  /** `{base}/sensor/{id}/state` */
  function StateTopic(base: CStr, id: CStr): (t: CStr)
    ensures |t| == |base| + |id| + 14
  {
    base + "/sensor/" + id + "/state"
  }

  /** `{base}/status` */
  function StatusTopic(base: CStr): (t: CStr)
    ensures |t| == |base| + 7
  {
    base + "/status"
  }

  /** `{prefix}/sensor/{base}_{id}/config` */
  function DiscoveryTopic(prefix: CStr, base: CStr, id: CStr): (t: CStr)
    ensures |t| == |prefix| + |base| + |id| + 16
  {
    prefix + "/sensor/" + base + "_" + id + "/config"
  }

  /** `{base}_{id}` */
  function UniqueId(base: CStr, id: CStr): (t: CStr)
    ensures |t| == |base| + |id| + 1
  {
    base + "_" + id
  }

  /**
   * The segments of a state topic sit at fixed places, so the base and the
   * sensor id can be read back from it; for one base, distinct sensor ids
   * give distinct topics.
   */
  lemma {:induction false} StateTopicSegments(base: CStr, id: CStr)
    ensures StartsWith(StateTopic(base, id), base)
    ensures StateTopic(base, id)[|base| + 8..|base| + 8 + |id|] == id
  {
    var t := StateTopic(base, id);
    assert t == base + ("/sensor/" + id + "/state");
    assert t[|base|..] == "/sensor/" + id + "/state";
    assert t[|base| + 8..] == id + "/state";
  }

  lemma {:induction false} StateTopicInjective(base: CStr, id1: CStr, id2: CStr)
    ensures StateTopic(base, id1) == StateTopic(base, id2) <==> id1 == id2
  {
    if StateTopic(base, id1) == StateTopic(base, id2) {
      StateTopicSegments(base, id1);
      StateTopicSegments(base, id2);
    }
  }

  /** The base topic is the status topic without its `/status` suffix. */
  lemma {:induction false} StatusTopicInjective(base1: CStr, base2: CStr)
    ensures StatusTopic(base1) == StatusTopic(base2) <==> base1 == base2
  {
    if StatusTopic(base1) == StatusTopic(base2) {
      assert base1 == StatusTopic(base1)[..|base1|];
      assert base2 == StatusTopic(base2)[..|base2|];
    }
  }

  /** For one prefix and base, distinct sensor ids give distinct discovery topics. */
  lemma {:induction false} DiscoveryTopicInjective(prefix: CStr, base: CStr, id1: CStr, id2: CStr)
    ensures DiscoveryTopic(prefix, base, id1) == DiscoveryTopic(prefix, base, id2) <==> id1 == id2
  {
    var head := prefix + "/sensor/" + base + "_";
    if DiscoveryTopic(prefix, base, id1) == DiscoveryTopic(prefix, base, id2) {
      assert DiscoveryTopic(prefix, base, id1) == head + (id1 + "/config");
      assert DiscoveryTopic(prefix, base, id2) == head + (id2 + "/config");
      assert id1 + "/config" == DiscoveryTopic(prefix, base, id1)[|head|..];
      assert id1 == (id1 + "/config")[..|id1|];
      assert id2 == (id2 + "/config")[..|id2|];
    }
  }

  /** For one base, distinct sensor ids give distinct unique ids. */
  lemma {:induction false} UniqueIdInjective(base: CStr, id1: CStr, id2: CStr)
    ensures UniqueId(base, id1) == UniqueId(base, id2) <==> id1 == id2
  {
    if UniqueId(base, id1) == UniqueId(base, id2) {
      assert id1 == UniqueId(base, id1)[|base| + 1..];
      assert id2 == UniqueId(base, id2)[|base| + 1..];
    }
  }

  // ---------------------------------------------------------------------
  // Builders

  /**
   * `mqtt_generate_state_topic`: -1 when the buffer, the base or the id is
   * NULL, or when the topic and its terminator do not fit in `bufLen`
   * bytes; otherwise the topic's length, with the topic and its
   * terminator at the start of the buffer and the rest untouched.
   */
  method GenerateStateTopic(buf: array?<char>, bufLen: nat, baseTopic: Option<CStr>, sensorId: Option<CStr>)
      returns (len: int)
    requires buf != null ==> bufLen <= buf.Length
    modifies buf
    ensures buf != null && (baseTopic.None? || sensorId.None?) ==> len == -1 && unchanged(buf)
    ensures len != -1 <==>
              buf != null && baseTopic.Some? && sensorId.Some?
              && Fits(StateTopic(baseTopic.value, sensorId.value), bufLen)
    ensures len != -1 ==>
              len == |StateTopic(baseTopic.value, sensorId.value)|
              && buf[..] == StateTopic(baseTopic.value, sensorId.value) + ['\0'] + old(buf[len + 1..])
  {
    if buf == null || baseTopic.None? || sensorId.None? {
      return -1;
    }
    len := WriteIfFits(buf, bufLen, StateTopic(baseTopic.value, sensorId.value));
  }

  /** `mqtt_generate_status_topic`: as the state topic, for `{base}/status`. */
  method GenerateStatusTopic(buf: array?<char>, bufLen: nat, baseTopic: Option<CStr>) returns (len: int)
    requires buf != null ==> bufLen <= buf.Length
    modifies buf
    ensures buf != null && baseTopic.None? ==> len == -1 && unchanged(buf)
    ensures len != -1 <==> buf != null && baseTopic.Some? && Fits(StatusTopic(baseTopic.value), bufLen)
    ensures len != -1 ==>
              len == |StatusTopic(baseTopic.value)|
              && buf[..] == StatusTopic(baseTopic.value) + ['\0'] + old(buf[len + 1..])
  {
    if buf == null || baseTopic.None? {
      return -1;
    }
    len := WriteIfFits(buf, bufLen, StatusTopic(baseTopic.value));
  }

  /** `mqtt_generate_discovery_topic`: as the state topic, for the discovery template. */
  method GenerateDiscoveryTopic(buf: array?<char>, bufLen: nat, discoveryPrefix: Option<CStr>,
                                baseTopic: Option<CStr>, sensorId: Option<CStr>) returns (len: int)
    requires buf != null ==> bufLen <= buf.Length
    modifies buf
    ensures buf != null && (discoveryPrefix.None? || baseTopic.None? || sensorId.None?) ==>
              len == -1 && unchanged(buf)
    ensures len != -1 <==>
              buf != null && discoveryPrefix.Some? && baseTopic.Some? && sensorId.Some?
              && Fits(DiscoveryTopic(discoveryPrefix.value, baseTopic.value, sensorId.value), bufLen)
    ensures len != -1 ==>
              len == |DiscoveryTopic(discoveryPrefix.value, baseTopic.value, sensorId.value)|
              && buf[..] == DiscoveryTopic(discoveryPrefix.value, baseTopic.value, sensorId.value)
                            + ['\0'] + old(buf[len + 1..])
  {
    if buf == null || discoveryPrefix.None? || baseTopic.None? || sensorId.None? {
      return -1;
    }
    len := WriteIfFits(buf, bufLen, DiscoveryTopic(discoveryPrefix.value, baseTopic.value, sensorId.value));
  }

  /** `mqtt_generate_unique_id`: as the state topic, for `{base}_{id}`. */
  method GenerateUniqueId(buf: array?<char>, bufLen: nat, baseTopic: Option<CStr>, sensorId: Option<CStr>)
      returns (len: int)
    requires buf != null ==> bufLen <= buf.Length
    modifies buf
    ensures buf != null && (baseTopic.None? || sensorId.None?) ==> len == -1 && unchanged(buf)
    ensures len != -1 <==>
              buf != null && baseTopic.Some? && sensorId.Some?
              && Fits(UniqueId(baseTopic.value, sensorId.value), bufLen)
    ensures len != -1 ==>
              len == |UniqueId(baseTopic.value, sensorId.value)|
              && buf[..] == UniqueId(baseTopic.value, sensorId.value) + ['\0'] + old(buf[len + 1..])
  {
    if buf == null || baseTopic.None? || sensorId.None? {
      return -1;
    }
    len := WriteIfFits(buf, bufLen, UniqueId(baseTopic.value, sensorId.value));
  }

  /**
   * `mqtt_format_temperature`, with the `%.2f` text `rendered` supplied by
   * the caller: -1 for a NULL buffer or when the text does not fit,
   * otherwise its length, with the text written like the topics.
   */
  method FormatTemperature(buf: array?<char>, bufLen: nat, rendered: CStr) returns (len: int)
    requires buf != null ==> bufLen <= buf.Length
    modifies buf
    ensures len != -1 <==> buf != null && Fits(rendered, bufLen)
    ensures len != -1 ==> len == |rendered| && buf[..] == rendered + ['\0'] + old(buf[len + 1..])
  {
    if buf == null {
      return -1;
    }
    len := WriteIfFits(buf, bufLen, rendered);
  }

  // ---------------------------------------------------------------------
  // Sensor ids

  /** A sensor id: the 8-byte ROM address as exactly 16 hex digits of either case. */
  predicate IsSensorId(s: seq<char>)
  {
    |s| == 16 && forall i | 0 <= i < |s| :: IsXDigit(s[i])
  }

  /** `mqtt_validate_sensor_id`: false for NULL, else true iff the string is a sensor id. */
  method ValidateSensorId(sensorId: Option<CStr>) returns (ok: bool)
    ensures ok <==> sensorId.Some? && IsSensorId(sensorId.value)
  {
    if sensorId.None? {
      return false;
    }
    var s := sensorId.value;
    var len := |s|;
    if len != 16 {
      return false;
    }
    var i := 0;
    while i < len
      invariant 0 <= i <= len
      invariant forall j | 0 <= j < i :: IsXDigit(s[j])
    {
      if !IsXDigit(s[i]) {
        return false;
      }
      i := i + 1;
    }
    return true;
  }

  /** The state topic of the unit tests, 44 bytes long. */
  lemma StateTopicExample()
    ensures StateTopic("esp32-poe-temp", "28FF123456789ABC") == "esp32-poe-temp/sensor/28FF123456789ABC/state"
    ensures |StateTopic("esp32-poe-temp", "28FF123456789ABC")| == 44
  {
  }
}
