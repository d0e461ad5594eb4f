/**
 * `SensorDataHandler` (api/Services/Mqtt/SensorDataHandler.cs): the API's
 * in-memory cache of the latest temperature and the latest humidity message
 * received on a device's data topic.
 *
 * The payload arrives already deserialised: `None` is a payload that
 * deserialises to null. The lock around the two slots only serialises
 * callers, so the model treats calls one at a time.
 */
module SensorDataHandler {
  import opened Wrappers
  import MqttClient

  /** `SensorDataMessage`. */
  datatype SensorDataMessage = SensorDataMessage(sensorType: string, value: real, unit: string, timestamp: string)

  /** Whether `pattern` occurs in `s` starting at index `i`. */
  predicate OccursAt(s: string, pattern: string, i: int) {
    0 <= i && i + |pattern| <= |s| && s[i..i + |pattern|] == pattern
  }

  /** Whether `pattern` occurs in `s` at index `i` or later: the search `string.Contains` performs. */
  function OccursFrom(s: string, pattern: string, i: nat): (r: bool)
    requires i <= |s|
    ensures r <==> exists j :: i <= j && OccursAt(s, pattern, j)
    decreases |s| - i
  {
    if OccursAt(s, pattern, i) then true
    else if i == |s| then
      assert forall j :: i <= j && OccursAt(s, pattern, j) ==> j == i;
      false
    else OccursFrom(s, pattern, i + 1)
  }

  /** `CanHandle(topic)`: the topic contains "/data" anywhere. */
  function CanHandle(topic: string): (r: bool)
    ensures r <==> exists j :: OccursAt(topic, "/data", j)
  {
    OccursFrom(topic, "/data", 0)
  }

  /** The two cached slots after one message. */
  function Apply(slots: (Option<SensorDataMessage>, Option<SensorDataMessage>), data: Option<SensorDataMessage>)
    : (Option<SensorDataMessage>, Option<SensorDataMessage>)
  {
    match data
    case None => slots
    case Some(d) =>
      if d.sensorType == "temperature" then (data, slots.1)
      else if d.sensorType == "humidity" then (slots.0, data)
      else slots
  }

  class SensorDataHandler {
    var latestTemperature: Option<SensorDataMessage>
    var latestHumidity: Option<SensorDataMessage>

    constructor ()
      ensures latestTemperature == None && latestHumidity == None
    {
      latestTemperature := None;
      latestHumidity := None;
    }

    /** `HandleAsync(topic, payload)` with the payload deserialised to `data`. */
    method HandleAsync(data: Option<SensorDataMessage>)
      modifies this
      ensures (latestTemperature, latestHumidity) == Apply(old((latestTemperature, latestHumidity)), data)
    {
      if data == None {
        return;
      }
      if data.value.sensorType == "temperature" {
        latestTemperature := data;
      } else if data.value.sensorType == "humidity" {
        latestHumidity := data;
      }
    }

    /** `GetLatestReadings()`. */
    method GetLatestReadings() returns (temperature: Option<SensorDataMessage>, humidity: Option<SensorDataMessage>)
      ensures temperature == latestTemperature && humidity == latestHumidity
    {
      temperature := latestTemperature;
      humidity := latestHumidity;
    }
  }

  /** One message changes at most the slot its type names, and only to itself. */
  lemma ApplyTouchesOneSlot(slots: (Option<SensorDataMessage>, Option<SensorDataMessage>), data: Option<SensorDataMessage>)
    ensures var after := Apply(slots, data);
      && (after.0 != slots.0 ==> data.Some? && data.value.sensorType == "temperature" && after.0 == data)
      && (after.1 != slots.1 ==> data.Some? && data.value.sensorType == "humidity" && after.1 == data)
      && (data.Some? && data.value.sensorType == "temperature" ==> after == (data, slots.1))
      && (data.Some? && data.value.sensorType == "humidity" ==> after == (slots.0, data))
  {
  }

  /** The slots a run of messages leaves. */
  function Replay(slots: (Option<SensorDataMessage>, Option<SensorDataMessage>), messages: seq<Option<SensorDataMessage>>)
    : (Option<SensorDataMessage>, Option<SensorDataMessage>)
    decreases |messages|
  {
    if messages == [] then slots else Apply(Replay(slots, messages[..|messages| - 1]), messages[|messages| - 1])
  }

  /** The last message of a run whose type is `sensorType`, if any. */
  function LastOfType(messages: seq<Option<SensorDataMessage>>, sensorType: string): (r: Option<SensorDataMessage>)
    ensures r.Some? ==> r in messages && r.value.sensorType == sensorType
    decreases |messages|
  {
    if messages == [] then None
    else
      var m := messages[|messages| - 1];
      if m.Some? && m.value.sensorType == sensorType then m
      else LastOfType(messages[..|messages| - 1], sensorType)
  }

  function OrElse(a: Option<SensorDataMessage>, b: Option<SensorDataMessage>): Option<SensorDataMessage> {
    if a.Some? then a else b
  }

  /**
   * `GetLatestReadings` after a run of messages returns the most recent
   * temperature and the most recent humidity of the run, or what was cached
   * before when the run has none of that type.
   */
  lemma {:induction false} ReplayKeepsLatest(slots: (Option<SensorDataMessage>, Option<SensorDataMessage>),
                                             messages: seq<Option<SensorDataMessage>>)
    ensures Replay(slots, messages) == (OrElse(LastOfType(messages, "temperature"), slots.0),
                                        OrElse(LastOfType(messages, "humidity"), slots.1))
    decreases |messages|
  {
    if messages != [] {
      ReplayKeepsLatest(slots, messages[..|messages| - 1]);
      assert "temperature"[0] != "humidity"[0];
    }
  }

  /** The firmware's data topic is handled; its fan-status and motion topics are not. */
  lemma FirmwareTopics()
    ensures CanHandle(MqttClient.TopicSensorData)
    ensures !CanHandle(MqttClient.TopicStatusFan) && !CanHandle(MqttClient.TopicMotion)
  {
    assert OccursAt(MqttClient.TopicSensorData, "/data", 18);
    var fan := MqttClient.TopicStatusFan;
    forall j | 0 <= j && j + 5 <= |fan|
      ensures !OccursAt(fan, "/data", j)
    {
      assert fan[j] != '/' || fan[j + 1] != 'd';
      assert fan[j..j + 5][0] == fan[j] && fan[j..j + 5][1] == fan[j + 1];
    }
    var motion := MqttClient.TopicMotion;
    forall j | 0 <= j && j + 5 <= |motion|
      ensures !OccursAt(motion, "/data", j)
    {
      assert motion[j] != '/' || motion[j + 1] != 'd';
      assert motion[j..j + 5][0] == motion[j] && motion[j..j + 5][1] == motion[j + 1];
    }
  }

  /**
   * A humidity message, a gas message and a null payload: only the humidity
   * slot is filled.
   */
  method GasAndNullIgnored(humidity: SensorDataMessage, gas: SensorDataMessage)
    returns (t: Option<SensorDataMessage>, h: Option<SensorDataMessage>)
    requires humidity.sensorType == "humidity" && gas.sensorType == "gas"
    ensures t == None && h == Some(humidity)
  {
    var handler := new SensorDataHandler();
    handler.HandleAsync(Some(humidity));
    assert "gas"[0] != "temperature"[0] && "gas"[0] != "humidity"[0];
    handler.HandleAsync(Some(gas));
    handler.HandleAsync(None);
    t, h := handler.GetLatestReadings();
  }
}
