/**
 * `GasHandler` (esp32/handlers/gas_handler.py): a latched alarm. The first
 * poll that sees gas raises the alarm (strip red, fan on, two messages); the
 * first poll after that which sees no gas clears it (strip off, fan off, two
 * messages). Polls in between do nothing.
 *
 * The sensor reading and the two timestamps of a call are parameters; the
 * handler drives a strip and a fan built for the call, not the managers, and
 * ignores whether its publishes succeed.
 */
module GasHandler {
  import opened Wrappers
  import opened Json
  import opened Devices
  import opened MqttClient

  /** `{"sensor_type": "gas", "detected": …, "timestamp": …}` on the sensor-data topic. */
  function GasReport(detected: bool, stamp: string): Message {
    Message(TopicSensorData, JObject([("sensor_type", JStr("gas")), ("detected", JBool(detected)), ("timestamp", JStr(stamp))]))
  }

  /** `{"state": "on"|"off", "timestamp": …}` on the fan-status topic. */
  function FanReport(on: bool, stamp: string): Message {
    Message(TopicStatusFan, JObject([("state", JStr(if on then "on" else "off")), ("timestamp", JStr(stamp))]))
  }

  /** Whether a poll changes the latch: raising it on gas, or clearing it when the gas is gone. */
  predicate Flips(active: bool, detected: bool) {
    active != detected
  }

  /** The messages one poll publishes. */
  function Reports(active: bool, detected: bool, stamp1: string, stamp2: string): seq<Message> {
    if Flips(active, detected) then [GasReport(detected, stamp1), FanReport(detected, stamp2)] else []
  }

  class GasHandler {
    const board: Board
    var gasAlarmActive: bool

    constructor (board: Board)
      ensures this.board == board && !gasAlarmActive
    {
      this.board := board;
      gasAlarmActive := false;
    }

    /** `handle_gas_detection`: one poll with sensor reading `detected`. */
    method HandleGasDetection(detected: bool, stamp1: string, stamp2: string) returns (published: seq<Message>)
      modifies this`gasAlarmActive, board`strip, board`fanRunning
      ensures gasAlarmActive == (if Flips(old(gasAlarmActive), detected) then detected else old(gasAlarmActive))
      ensures published == Reports(old(gasAlarmActive), detected, stamp1, stamp2)
      ensures board.strip == (if Flips(old(gasAlarmActive), detected) then (if detected then Red else Off) else old(board.strip))
      ensures board.fanRunning == (if Flips(old(gasAlarmActive), detected) then detected else old(board.fanRunning))
    {
      var rgb := new RGB(board);
      var fan := new Fan(board);
      published := [];
      if !gasAlarmActive {
        if detected {
          gasAlarmActive := true;
          rgb.SetColor(Red);
          fan.On();
          published := published + [GasReport(true, stamp1)];
          published := published + [FanReport(true, stamp2)];
        }
      } else {
        if !detected {
          gasAlarmActive := false;
          rgb.TurnOff();
          fan.TurnOff();
          published := published + [GasReport(false, stamp1)];
          published := published + [FanReport(false, stamp2)];
        }
      }
    }
  }

  /** After any poll the latch equals the reading: the flag follows the sensor with no hysteresis. */
  lemma LatchFollowsReading(active: bool, detected: bool)
    ensures (if Flips(active, detected) then detected else active) == detected
  {
  }

  /** The latch a run of polls leaves. */
  function LatchAfter(active: bool, readings: seq<bool>): bool {
    if readings == [] then active else readings[|readings| - 1]
  }

  /** The `detected` values a run of polls publishes, in order (stamps elided). */
  function ReportedAlarms(active: bool, readings: seq<bool>): seq<bool>
    decreases |readings|
  {
    if readings == [] then []
    else (if Flips(active, readings[0]) then [readings[0]] else []) + ReportedAlarms(readings[0], readings[1..])
  }

  /** Each value is the opposite of the one before it. */
  predicate Alternating(r: seq<bool>) {
    forall i :: 0 <= i < |r| - 1 ==> r[i + 1] == !r[i]
  }

  /** Putting the opposite of its first value in front of an alternating sequence keeps it alternating. */
  lemma AlternatingCons(x: bool, rest: seq<bool>)
    requires Alternating(rest) && (|rest| > 0 ==> rest[0] == !x)
    ensures Alternating([x] + rest)
  {
    var r := [x] + rest;
    forall i | 0 <= i < |r| - 1
      ensures r[i + 1] == !r[i]
    {
      if i > 0 {
        assert r[i] == rest[i - 1] && r[i + 1] == rest[i];
      }
    }
  }

  /**
   * Starting from a given latch, the reports alternate: the first reports the
   * opposite of the starting latch, and each one the opposite of the one before.
   */
  lemma {:induction false} ReportsAlternate(active: bool, readings: seq<bool>)
    ensures var r := ReportedAlarms(active, readings);
      (|r| > 0 ==> r[0] == !active) && Alternating(r)
    decreases |readings|
  {
    if readings != [] {
      var head, tail := readings[0], readings[1..];
      ReportsAlternate(head, tail);
      var rest := ReportedAlarms(head, tail);
      if Flips(active, head) {
        assert ReportedAlarms(active, readings) == [head] + rest;
        AlternatingCons(head, rest);
      } else {
        assert ReportedAlarms(active, readings) == rest;
      }
    }
  }

  /** The last report of a run agrees with the latch the run leaves; with no report the latch is unchanged. */
  lemma {:induction false} LastReportIsLatch(active: bool, readings: seq<bool>)
    ensures var r := ReportedAlarms(active, readings);
      && (|r| > 0 ==> r[|r| - 1] == LatchAfter(active, readings))
      && (|r| == 0 ==> LatchAfter(active, readings) == active)
    decreases |readings|
  {
    if readings != [] {
      var head, tail := readings[0], readings[1..];
      LastReportIsLatch(head, tail);
      var rest := ReportedAlarms(head, tail);
      var r := ReportedAlarms(active, readings);
      assert r == (if Flips(active, head) then [head] else []) + rest;
      if tail == [] {
        assert LatchAfter(head, tail) == head == LatchAfter(active, readings);
      } else {
        assert LatchAfter(head, tail) == LatchAfter(active, readings);
      }
    }
  }

  /** A handler that starts inactive reports a detection first, and never the same value twice in a row. */
  lemma FirstReportIsDetection(readings: seq<bool>)
    ensures var r := ReportedAlarms(false, readings);
      (|r| > 0 ==> r[0]) && forall i :: 0 <= i < |r| - 1 ==> r[i] != r[i + 1]
  {
    ReportsAlternate(false, readings);
    var r := ReportedAlarms(false, readings);
    assert forall i :: 0 <= i < |r| - 1 ==> r[i + 1] == !r[i];
  }

  /** Two successive polls that see gas: one alarm, two messages, and the second poll does nothing. */
  method GasPersists(stamp: string) returns (first: seq<Message>, second: seq<Message>, active: bool, strip: Color)
    ensures |first| == 2 && first[0] == GasReport(true, stamp) && first[1] == FanReport(true, stamp)
    ensures second == [] && active && strip == Red
  {
    var board := new Board();
    var handler := new GasHandler(board);
    first := handler.HandleGasDetection(true, stamp, stamp);
    second := handler.HandleGasDetection(true, stamp, stamp);
    active := handler.gasAlarmActive;
    strip := board.strip;
  }
}
