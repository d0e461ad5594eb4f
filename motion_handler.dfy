/**
 * `MotionHandler` (esp32/handlers/motion_handler.py): a motion detection lights
 * the strip orange and starts a three-step countdown; every call with the
 * countdown running decrements it, and the call that brings it to 0 turns
 * the strip off.
 *
 * The PIR reading of a call is a parameter. Like the gas handler, this one
 * drives a strip built for the call rather than the RGB manager, so it paints
 * over and clears whatever colour another handler left. The Supabase insert
 * is not modelled.
 */
module MotionHandler {
  import opened Json
  import opened Devices
  import opened MqttClient
  import GasHandler

  /** The countdown a detection starts. */
  const MotionHold: int := 3

  /** `'{"detected": true}'` on the motion topic. */
  const MotionReport: Message := Message(TopicMotion, JObject([("detected", JBool(true))]))

  /** The count after the detection branch, before the countdown step. */
  function Started(count: int, detected: bool): int {
    if detected then MotionHold else count
  }

  /** The count one call leaves. */
  function CountAfter(count: int, detected: bool): int {
    var c := Started(count, detected);
    if c > 0 then c - 1 else c
  }

  /** Whether the call turns the strip off: its countdown step goes from 1 to 0. */
  predicate SwitchesOff(count: int, detected: bool) {
    Started(count, detected) == 1
  }

  class MotionHandler {
    const board: Board
    var motionCount: int

    constructor (board: Board)
      ensures this.board == board && motionCount == 0
    {
      this.board := board;
      motionCount := 0;
    }

    /** `handle_motion_detection(mqtt)` with PIR reading `detected`: returns what it publishes. */
    method HandleMotionDetection(detected: bool) returns (published: seq<Message>)
      modifies this`motionCount, board`strip
      ensures motionCount == CountAfter(old(motionCount), detected)
      ensures published == if detected then [MotionReport] else []
      ensures board.strip == if SwitchesOff(old(motionCount), detected) then Off
                             else if detected then Orange else old(board.strip)
    {
      var rgb := new RGB(board);
      published := [];
      if detected {
        motionCount := MotionHold;
        rgb.SetColor(Orange);
        published := published + [MotionReport];
      }
      if motionCount > 0 {
        motionCount := motionCount - 1;
        if motionCount == 0 {
          rgb.TurnOff();
        }
      }
    }
  }

  /**
   * The count stays in 0..2 between calls, a detecting call always leaves 2,
   * and a call with the count at 0 and no motion changes nothing.
   */
  lemma CountBounds(count: int, detected: bool)
    requires 0 <= count <= MotionHold - 1
    ensures 0 <= CountAfter(count, detected) <= MotionHold - 1
    ensures detected ==> CountAfter(count, detected) == MotionHold - 1 && !SwitchesOff(count, detected)
    ensures !detected && count == 0 ==> CountAfter(count, detected) == 0 && !SwitchesOff(count, detected)
  {
  }

  /** The count after a run of calls. */
  function CountRun(count: int, readings: seq<bool>): int
    decreases |readings|
  {
    if readings == [] then count else CountRun(CountAfter(count, readings[0]), readings[1..])
  }

  /** For each call of a run, whether it turned the strip off. */
  function OffCalls(count: int, readings: seq<bool>): (r: seq<bool>)
    ensures |r| == |readings|
    decreases |readings|
  {
    if readings == [] then []
    else [SwitchesOff(count, readings[0])] + OffCalls(CountAfter(count, readings[0]), readings[1..])
  }

  /** `k` calls in which the sensor sees nothing. */
  function Quiet(k: nat): (r: seq<bool>)
    ensures |r| == k && forall i :: 0 <= i < k ==> !r[i]
  {
    seq(k, _ => false)
  }

  /**
   * With no motion, a count of c runs down by one per call, and the strip is
   * turned off by call c (counting from 1) and by no other.
   */
  lemma {:induction false} QuietCountdown(count: int, k: nat)
    requires count >= 0
    ensures CountRun(count, Quiet(k)) == if count >= k then count - k else 0
    ensures forall i :: 0 <= i < k ==> OffCalls(count, Quiet(k))[i] == (i + 1 == count)
    decreases k
  {
    if k > 0 {
      assert Quiet(k)[0] == false && Quiet(k)[1..] == Quiet(k - 1);
      QuietCountdown(CountAfter(count, false), k - 1);
      var rest := OffCalls(CountAfter(count, false), Quiet(k - 1));
      assert OffCalls(count, Quiet(k)) == [SwitchesOff(count, false)] + rest;
      forall i | 0 < i < k
        ensures OffCalls(count, Quiet(k))[i] == (i + 1 == count)
      {
        assert OffCalls(count, Quiet(k))[i] == rest[i - 1];
      }
    }
  }

  /**
   * A detection followed by quiet calls: whatever the count before, the strip
   * goes off on the second call after the detecting one and on no other, and
   * the count is 0 from then on.
   */
  lemma DetectionThenQuiet(count: int, k: nat)
    ensures var offs := OffCalls(count, [true] + Quiet(k));
      forall i :: 0 <= i <= k ==> offs[i] == (i == 2)
    ensures k >= 2 ==> CountRun(count, [true] + Quiet(k)) == 0
  {
    var rs := [true] + Quiet(k);
    assert rs[0] && rs[1..] == Quiet(k);
    QuietCountdown(MotionHold - 1, k);
    assert OffCalls(count, rs) == [false] + OffCalls(MotionHold - 1, Quiet(k));
  }

  /** A detection restarts the countdown whatever it stood at: the two runs end alike. */
  lemma DetectionRestarts(count1: int, count2: int, readings: seq<bool>)
    ensures CountRun(count1, [true] + readings) == CountRun(count2, [true] + readings)
    ensures OffCalls(count1, [true] + readings) == OffCalls(count2, [true] + readings)
  {
    var rs := [true] + readings;
    assert rs[1..] == readings;
  }

  /**
   * The handlers share the strip: a detection while the gas alarm holds it red
   * paints it orange, and two quiet calls later the strip is off although the
   * gas alarm is still raised.
   */
  method MotionOverridesGasColour(stamp: string) returns (afterDetection: Color, afterCountdown: Color, gasActive: bool)
    ensures afterDetection == Orange && afterCountdown == Off && gasActive
  {
    var board := new Board();
    var gas := new GasHandler.GasHandler(board);
    var _ := gas.HandleGasDetection(true, stamp, stamp);
    var handler := new MotionHandler(board);
    var _ := handler.HandleMotionDetection(true);
    afterDetection := board.strip;
    var _ := handler.HandleMotionDetection(false);
    var _ := handler.HandleMotionDetection(false);
    afterCountdown := board.strip;
    gasActive := gas.gasAlarmActive;
  }
}
