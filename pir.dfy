/**
 * `PIRSensor` (embedded/sensors/pir.py): a motion reading debounced by time.
 * A high pin counts as motion only when more than 500 ms have passed since
 * the last reading that counted.
 *
 * The pin level and the `time.ticks_ms()` value of a call are parameters.
 * MicroPython's tick counter wraps around, and `time.ticks_diff` compares two
 * ticks as the signed difference modulo the tick period; that arithmetic is
 * written out here, with a period of 2^30 as on the ESP32 port.
 */
module Pir {
  /** The period of `time.ticks_ms()`. */
  const TicksPeriod: int := 0x4000_0000
  const TicksHalf: int := 0x2000_0000

  /** The debounce interval in milliseconds. */
  const DebounceTime: int := 500

  /** `time.ticks_diff(a, b)`: `a - b` brought into [-2^29, 2^29) modulo the tick period. */
  function TicksDiff(a: int, b: int): (d: int)
    ensures -TicksHalf <= d < TicksHalf
    ensures (d - (a - b)) % TicksPeriod == 0
  {
    (a - b + TicksHalf) % TicksPeriod - TicksHalf
  }

  /** Between ticks less than half a period apart, `ticks_diff` is the plain difference. */
  lemma TicksDiffExact(a: int, b: int)
    requires -TicksHalf <= a - b < TicksHalf
    ensures TicksDiff(a, b) == a - b
  {
  }

  /** Whether a call counts as motion. */
  predicate Triggers(lastTrigger: int, pinHigh: bool, now: int) {
    pinHigh && TicksDiff(now, lastTrigger) > DebounceTime
  }

  class PIRSensor {
    var lastTriggerTime: int
    const debounceTime: int

    constructor ()
      ensures lastTriggerTime == 0 && debounceTime == DebounceTime
    {
      lastTriggerTime := 0;
      debounceTime := DebounceTime;
    }

    /** `is_motion_detected()` with pin level `pinHigh` at tick `now`. */
    method IsMotionDetected(pinHigh: bool, now: int) returns (detected: bool)
      requires debounceTime == DebounceTime
      modifies this`lastTriggerTime
      ensures detected <==> pinHigh && TicksDiff(now, old(lastTriggerTime)) > DebounceTime
      ensures lastTriggerTime == if detected then now else old(lastTriggerTime)
    {
      detected := false;
      if pinHigh {
        if TicksDiff(now, lastTriggerTime) > debounceTime {
          lastTriggerTime := now;
          detected := true;
        }
      }
    }
  }

  /** A call: the pin level and the tick it was read at. */
  datatype Sample = Sample(pinHigh: bool, now: int)

  /** The last trigger tick after a run of calls. */
  function LastTrigger(lastTrigger: int, samples: seq<Sample>): int
    decreases |samples|
  {
    if samples == [] then lastTrigger
    else
      var s := samples[0];
      LastTrigger(if Triggers(lastTrigger, s.pinHigh, s.now) then s.now else lastTrigger, samples[1..])
  }

  /** The ticks of the calls in a run that counted as motion, in order. */
  function TriggerTimes(lastTrigger: int, samples: seq<Sample>): seq<int>
    decreases |samples|
  {
    if samples == [] then []
    else
      var s := samples[0];
      if Triggers(lastTrigger, s.pinHigh, s.now) then [s.now] + TriggerTimes(s.now, samples[1..])
      else TriggerTimes(lastTrigger, samples[1..])
  }

  /**
   * Debounce: every counted call is more than 500 ms (by `ticks_diff`) after
   * the one counted before it, the first more than 500 ms after the starting
   * tick, and the last counted tick is what the sensor keeps.
   */
  lemma {:induction false} TriggersSpaced(lastTrigger: int, samples: seq<Sample>)
    ensures var ts := TriggerTimes(lastTrigger, samples);
      && (|ts| > 0 ==> TicksDiff(ts[0], lastTrigger) > DebounceTime)
      && (forall k :: 0 <= k < |ts| - 1 ==> TicksDiff(ts[k + 1], ts[k]) > DebounceTime)
      && LastTrigger(lastTrigger, samples) == (if |ts| > 0 then ts[|ts| - 1] else lastTrigger)
    decreases |samples|
  {
    if samples != [] {
      var s := samples[0];
      if Triggers(lastTrigger, s.pinHigh, s.now) {
        TriggersSpaced(s.now, samples[1..]);
        var rest := TriggerTimes(s.now, samples[1..]);
        assert TriggerTimes(lastTrigger, samples) == [s.now] + rest;
      } else {
        TriggersSpaced(lastTrigger, samples[1..]);
      }
    }
  }

  /** A low pin never counts, however long since the last trigger. */
  lemma {:induction false} LowPinNeverTriggers(lastTrigger: int, samples: seq<Sample>)
    requires forall i :: 0 <= i < |samples| ==> !samples[i].pinHigh
    ensures TriggerTimes(lastTrigger, samples) == [] && LastTrigger(lastTrigger, samples) == lastTrigger
    decreases |samples|
  {
    if samples != [] {
      LowPinNeverTriggers(lastTrigger, samples[1..]);
    }
  }

  /**
   * A pin held high, read every 100 ms from tick 1000: the readings at 1000
   * and 1600 count, those at 1100 to 1500 fall inside the debounce interval.
   */
  method HeldHighEvery100ms() returns (results: seq<bool>)
    ensures results == [true, false, false, false, false, false, true]
  {
    var sensor := new PIRSensor();
    var r0 := sensor.IsMotionDetected(true, 1000);
    var r1 := sensor.IsMotionDetected(true, 1100);
    var r2 := sensor.IsMotionDetected(true, 1200);
    var r3 := sensor.IsMotionDetected(true, 1300);
    var r4 := sensor.IsMotionDetected(true, 1400);
    var r5 := sensor.IsMotionDetected(true, 1500);
    var r6 := sensor.IsMotionDetected(true, 1600);
    results := [r0, r1, r2, r3, r4, r5, r6];
  }
}
