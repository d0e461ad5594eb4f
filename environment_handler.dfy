/**
 * `EnvironmentHandler` (esp32/handlers/environment_handler.py): each poll
 * reads the DHT11, redraws the display only when the reading differs from the
 * last one shown, and publishes temperature and humidity on the sensor-data
 * topic on every successful read.
 *
 * The DHT11 reading (None on a failed read) and the two timestamps are
 * parameters; a failed publish is only logged by the source, so the model
 * returns the messages attempted.
 */
module EnvironmentHandler {
  import opened Wrappers
  import opened Json
  import opened Tags
  import opened Decimal
  import opened MqttClient
  import opened OledOutput
  import Schema
  import EnvironmentalSchema

  /** The redraw `show('environment', "Temp: {t}C", 10, "Humid: {h}%")`. */
  function ReadingRequest(temperature: int, humidity: int): DisplayRequest {
    DisplayRequest(Environment, "Temp: " + IntString(temperature) + "C", 10, "Humid: " + IntString(humidity) + "%")
  }

  /** The payload `{"sensor_type": …, "value": …, "unit": …, "timestamp": …}`. */
  function ReadingPayload(sensorType: string, value: int, unit: string, stamp: string): Obj {
    [("sensor_type", JStr(sensorType)), ("value", JInt(value)), ("unit", JStr(unit)), ("timestamp", JStr(stamp))]
  }

  /** The two messages of a successful read: temperature in "C", then humidity in "%". */
  function ReadingReports(temperature: int, humidity: int, stamp1: string, stamp2: string): seq<Message> {
    [Message(TopicSensorData, JObject(ReadingPayload("temperature", temperature, "C", stamp1))),
     Message(TopicSensorData, JObject(ReadingPayload("humidity", humidity, "%", stamp2)))]
  }

  /** Whether a read differs from the last pair recorded. */
  predicate Changed(lastTemp: Option<int>, lastHumidity: Option<int>, temperature: int, humidity: int) {
    Some(temperature) != lastTemp || Some(humidity) != lastHumidity
  }

  class EnvironmentHandler {
    var lastTemp: Option<int>
    var lastHumidity: Option<int>

    constructor ()
      ensures lastTemp == None && lastHumidity == None
    {
      lastTemp := None;
      lastHumidity := None;
    }

    /** `handle_environment_detection(mqtt, oled_manager)` on DHT11 reading (`temperature`, `humidity`). */
    method HandleEnvironmentDetection(temperature: Option<int>, humidity: Option<int>, stamp1: string, stamp2: string,
                                      oled: OLEDManager)
      returns (requests: seq<DisplayRequest>, published: seq<Message>)
      modifies this, oled`owner, oled`countdown, oled.display.board`screen
      ensures temperature.None? || humidity.None? ==>
                && requests == [] && published == []
                && lastTemp == old(lastTemp) && lastHumidity == old(lastHumidity)
      ensures temperature.Some? && humidity.Some? ==>
                && requests == (if Changed(old(lastTemp), old(lastHumidity), temperature.value, humidity.value)
                                then [ReadingRequest(temperature.value, humidity.value)] else [])
                && published == ReadingReports(temperature.value, humidity.value, stamp1, stamp2)
                && lastTemp == (if requests == [] then old(lastTemp) else temperature)
                && lastHumidity == (if requests == [] then old(lastHumidity) else humidity)
      ensures oled.Shown() == AfterRequests(oled.admits, old(oled.Shown()), requests)
    {
      requests := [];
      published := [];
      if temperature.None? || humidity.None? {
        return;
      }
      var t := temperature.value;
      var h := humidity.value;
      if Some(t) != lastTemp || Some(h) != lastHumidity {
        var request := ReadingRequest(t, h);
        var _ := oled.Show(request.owner, request.line1, request.duration, request.line2);
        requests := [request];
        assert requests[1..] == [];
        lastTemp := Some(t);
        lastHumidity := Some(h);
      }
      published := published + [Message(TopicSensorData, JObject(ReadingPayload("temperature", t, "C", stamp1)))];
      published := published + [Message(TopicSensorData, JObject(ReadingPayload("humidity", h, "%", stamp2)))];
    }
  }

  /**
   * After a successful read the recorded pair is that read, whether or not it
   * was redrawn, so the same read again requests no redraw; any differing read does.
   */
  lemma RepeatedReadingNotRedrawn(lastTemp: Option<int>, lastHumidity: Option<int>, t: int, h: int, t2: int, h2: int)
    ensures var newTemp := if Changed(lastTemp, lastHumidity, t, h) then Some(t) else lastTemp;
      var newHumidity := if Changed(lastTemp, lastHumidity, t, h) then Some(h) else lastHumidity;
      && newTemp == Some(t) && newHumidity == Some(h)
      && (Changed(newTemp, newHumidity, t2, h2) <==> t2 != t || h2 != h)
  {
  }

  /** The first successful read after start-up is always drawn. */
  lemma FirstReadingDrawn(t: int, h: int)
    ensures Changed(None, None, t, h)
  {
  }

  /** A reading payload holds its four fields, and no location or status. */
  lemma ReadingPayloadFields(sensorType: string, value: int, unit: string, stamp: string)
    ensures var m := ReadingPayload(sensorType, value, unit, stamp);
      && Get(m, "sensor_type") == Some(JStr(sensorType)) && Get(m, "value") == Some(JInt(value))
      && Get(m, "unit") == Some(JStr(unit)) && Get(m, "timestamp") == Some(JStr(stamp))
      && Get(m, "location") == None && Get(m, "status") == None
  {
    var m := ReadingPayload(sensorType, value, unit, stamp);
    GetAt(m, 0, "sensor_type");
    GetAt(m, 1, "value");
    GetAt(m, 2, "unit");
    GetAt(m, 3, "timestamp");
    // Neither key matches a member: each differs from every member's key at its first or second character.
    forall i | 0 <= i < |m|
      ensures m[i].0 != "location" && m[i].0 != "status"
    {
      assert m[i].0[0] != "location"[0];
      assert m[i].0[0] != "status"[0] || m[i].0[1] != "status"[1];
    }
    GetFindsFirst(m, "location");
    GetFindsFirst(m, "status");
  }

  /**
   * The environmental schema check rejects every reading this handler
   * publishes, with exactly one error: the unit "C" or "%" is not one of
   * celsius, percent or ppm.
   */
  lemma PublishedReadingsFailSchema(t: int, h: int, stamp1: string, stamp2: string, i: nat)
    requires i < 2
    ensures var msg := ReadingReports(t, h, stamp1, stamp2)[i];
      && msg.payload.JObject?
      && EnvironmentalSchema.EnvironmentalResult(msg.payload.members)
           == EnvironmentalSchema.Returned([Schema.NotInEnum("unit", JStr(if i == 0 then "C" else "%"))])
  {
    var sensorType := if i == 0 then "temperature" else "humidity";
    var unit := if i == 0 then "C" else "%";
    var m := ReadingPayload(sensorType, if i == 0 then t else h, unit, if i == 0 then stamp1 else stamp2);
    assert ReadingReports(t, h, stamp1, stamp2)[i].payload.members == m;
    ReadingPayloadFields(sensorType, if i == 0 then t else h, unit, if i == 0 then stamp1 else stamp2);
    assert EnvironmentalSchema.Required[0] == "timestamp" && EnvironmentalSchema.Required[1] == "sensor_type";
    assert EnvironmentalSchema.Required[2] == "value" && EnvironmentalSchema.Required[3] == "unit";
    Schema.NoMissingErrorsIff(EnvironmentalSchema.Required, m);
    assert EnvironmentalSchema.SensorTypes[0] == "temperature" && EnvironmentalSchema.SensorTypes[1] == "humidity";
    EnvironmentalSchema.FirmwareUnitsNotInEnum();
  }

  /**
   * Two polls with the same reading: the first is drawn and the second is not,
   * and each publishes both values; a failed read in between changes nothing.
   */
  method SteadyReading(admits: (Option<Tag>, Tag) -> bool, stamp: string)
    returns (first: seq<DisplayRequest>, failed: seq<Message>, second: seq<DisplayRequest>, published: seq<Message>)
    requires AdmitsTestedGrants(admits)
    ensures first == [ReadingRequest(22, 45)] && failed == [] && second == []
    ensures published == ReadingReports(22, 45, stamp, stamp)
  {
    var board := new Devices.Board();
    var oled := new OLEDManager(board, admits);
    var handler := new EnvironmentHandler();
    var firstPublished, failedRequests;
    first, firstPublished := handler.HandleEnvironmentDetection(Some(22), Some(45), stamp, stamp, oled);
    failedRequests, failed := handler.HandleEnvironmentDetection(None, Some(45), stamp, stamp, oled);
    second, published := handler.HandleEnvironmentDetection(Some(22), Some(45), stamp, stamp, oled);
  }
}
