/**
 * `SmartHomeMQTTClient` (esp32/comms/mqtt_client.py): the topic-to-callback
 * table behind one broker connection, and the results `publish` and
 * `subscribe` report. The broker itself is a parameter: each call is told
 * whether the broker accepted it.
 */
module MqttClient {
  import opened Wrappers
  import opened Json

  /** A publish as the handlers make it: a topic and the JSON the payload encodes. */
  datatype Message = Message(topic: string, payload: Json)

  const TopicSensorData: string := "devices/esp32_main/data"
  const TopicStatusFan: string := "devices/esp32_main/status/fan"
  const TopicMotion: string := "home/motion"

  /** The Python values a call can return here, and how an `if` reads them. */
  datatype PyValue = PyNone | PyBool(b: bool)

  predicate Truthy(v: PyValue) {
    v.PyBool? && v.b
  }

  /** A callback run by `_dispatch`, with the arguments it receives. */
  datatype Invocation<C> = Invocation(callback: C, topic: string, msg: string)

  class SmartHomeMqttClient<C> {
    var callbacks: map<string, C>
    /** Messages the broker accepted, in order. */
    var sent: seq<Message>

    constructor ()
      ensures callbacks == map[] && sent == []
    {
      callbacks := map[];
      sent := [];
    }

    /** `publish`: true when the broker took the message, false on any error; it never raises. */
    method Publish(topic: string, payload: Json, brokerOk: bool) returns (ok: bool)
      modifies this`sent
      ensures ok == brokerOk
      ensures sent == old(sent) + if brokerOk then [Message(topic, payload)] else []
    {
      if brokerOk {
        sent := sent + [Message(topic, payload)];
        return true;
      }
      return false;
    }

    /** `_dispatch`: the callback registered for the topic, called once with (topic, msg), or none. */
    method Dispatch(topic: string, msg: string) returns (call: Option<Invocation<C>>)
      ensures call.Some? <==> topic in callbacks
      ensures call.Some? ==> call.value == Invocation(callbacks[topic], topic, msg)
    {
      if topic in callbacks {
        call := Some(Invocation(callbacks[topic], topic, msg));
      } else {
        call := None;
      }
    }

    /**
     * `subscribe` as written: the callback is stored before the broker is
     * asked, so it stays registered when the broker refuses; the call returns
     * False on failure and falls off its end, returning None, on success.
     */
    method Subscribe(topic: string, callback: C, brokerOk: bool) returns (r: PyValue)
      modifies this`callbacks
      ensures callbacks == old(callbacks)[topic := callback]
      ensures r == if brokerOk then PyNone else PyBool(false)
    {
      callbacks := callbacks[topic := callback];
      if !brokerOk {
        return PyBool(false);
      }
      r := PyNone;
    }

    /** `subscribe` as its caller reads it: true exactly when the broker accepted the subscription. */
    method SubscribeChecked(topic: string, callback: C, brokerOk: bool) returns (ok: bool)
      modifies this`callbacks
      ensures callbacks == old(callbacks)[topic := callback]
      ensures ok == brokerOk
    {
      callbacks := callbacks[topic := callback];
      ok := brokerOk;
    }
  }

  /**
   * A later subscription to the same topic replaces the earlier callback,
   * and the one left is dispatched even when its broker subscription failed.
   */
  method ResubscribeThenDispatch(topic: string, first: int, second: int, msg: string, brokerOk: bool)
    returns (call: Option<Invocation<int>>)
    ensures call == Some(Invocation(second, topic, msg))
  {
    var client := new SmartHomeMqttClient<int>();
    var _ := client.Subscribe(topic, first, true);
    var _ := client.Subscribe(topic, second, brokerOk);
    call := client.Dispatch(topic, msg);
  }

  /** A topic nobody subscribed to dispatches nothing. */
  method DispatchUnregistered(topic: string, other: string, callback: int, msg: string)
    returns (call: Option<Invocation<int>>)
    requires topic != other
    ensures call == None
  {
    var client := new SmartHomeMqttClient<int>();
    var _ := client.Subscribe(other, callback, true);
    call := client.Dispatch(topic, msg);
  }

  /**
   * The subscribe check of esp32/tests/archive/comms/test_mqtt.py,
   * `if mqtt_client.subscribe(...)`: with `subscribe` as written it never
   * reports success, whatever the broker does.
   */
  method ArchivedSubscribeCheck(brokerOk: bool) returns (reportsSuccess: bool)
    ensures !reportsSuccess
  {
    var client := new SmartHomeMqttClient<int>();
    var r := client.Subscribe("home/test", 0, brokerOk);
    reportsSuccess := Truthy(r);
  }

  /** The same check against the corrected `subscribe` reports exactly the broker's answer. */
  method CheckedSubscribeCheck(brokerOk: bool) returns (reportsSuccess: bool)
    ensures reportsSuccess == brokerOk
  {
    var client := new SmartHomeMqttClient<int>();
    reportsSuccess := client.SubscribeChecked("home/test", 0, brokerOk);
  }
}
