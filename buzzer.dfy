/**
 * `BuzzerManager`: the buzzer with an auto-stop countdown. Its source is not
 * part of this model; esp32/tests/test_buzzer.py and the control handler's
 * calls fix what it does. `stop()` also cancels a running countdown.
 */
module BuzzerOutput {
  import opened Wrappers
  import opened Devices
  import opened Countdown

  class BuzzerManager {
    const buzzer: Buzzer
    var isRunning: bool
    var countdown: int

    /** The countdown as a lease whose holder is present exactly while the buzzer sounds. */
    function State(): Lease<()>
      reads this
    {
      Lease(if isRunning then Some(()) else None, countdown)
    }

    constructor (board: Board)
      modifies board`buzzing
      ensures buzzer.board == board && !buzzer.isRunning && !board.buzzing
      ensures State() == Lease(None, 0)
    {
      buzzer := new Buzzer(board);
      isRunning := false;
      countdown := 0;
    }

    /** `start(duration)`: sound now, stop by itself after `duration` updates. */
    method Start(duration: int)
      modifies this`isRunning, this`countdown, buzzer`isRunning, buzzer.board`buzzing
      ensures State() == Lease(Some(()), duration) && buzzer.isRunning && buzzer.board.buzzing
    {
      buzzer.Start();
      isRunning := true;
      countdown := duration;
    }

    method Stop()
      modifies this`isRunning, this`countdown, buzzer`isRunning, buzzer.board`buzzing
      ensures State() == Lease(None, 0) && !buzzer.isRunning && !buzzer.board.buzzing
    {
      buzzer.Stop();
      isRunning := false;
      countdown := 0;
    }

    /** One tick: the update that brings the countdown to 0 silences the buzzer. */
    method Update()
      modifies this`isRunning, this`countdown, buzzer`isRunning, buzzer.board`buzzing
      ensures State() == Tick(old(State()))
      ensures Expiring(old(State())) ==> !buzzer.isRunning && !buzzer.board.buzzing
      ensures !Expiring(old(State())) ==> buzzer.isRunning == old(buzzer.isRunning) && buzzer.board.buzzing == old(buzzer.board.buzzing)
    {
      if countdown > 0 {
        countdown := countdown - 1;
        if countdown == 0 {
          buzzer.Stop();
          isRunning := false;
        }
      }
    }
  }

  /** The buzzer driver's `is_running` follows `start` and `stop` (esp32/tests/test_buzzer.py). */
  method BuzzerTests() returns (afterStart: bool, afterStop: bool, sounding: bool)
    ensures afterStart && !afterStop && !sounding
  {
    var board := new Board();
    var buzzer := new Buzzer(board);
    buzzer.Start();
    afterStart := buzzer.isRunning;
    buzzer.Stop();
    afterStop := buzzer.isRunning;
    sounding := board.buzzing;
  }

  /**
   * The manager's three test methods on one instance, in the order the suite
   * runs them (their names sorted): `start(1)` sounds,
   * `stop()` silences, and after `start(3)` three updates leave countdowns
   * 2, 1, 0 and the buzzer silent.
   */
  method BuzzerManagerTests() returns (started: bool, stopped: bool, counts: seq<int>, silentAtEnd: bool)
    ensures started && stopped && counts == [2, 1, 0] && silentAtEnd
  {
    var board := new Board();
    var manager := new BuzzerManager(board);
    manager.Start(1);
    started := manager.isRunning;
    manager.Stop();
    stopped := !manager.isRunning;
    manager.Start(3);
    manager.Update();
    counts := [manager.countdown];
    manager.Update();
    counts := counts + [manager.countdown];
    manager.Update();
    counts := counts + [manager.countdown];
    silentAtEnd := !manager.isRunning && !board.buzzing;
  }
}
