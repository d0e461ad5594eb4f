/**
 * `DoorServoManager`: the door servo (pin 13) with an auto-close countdown.
 * Its source is not part of this model; esp32/tests/test_servo.py and the
 * control handler's calls fix what it does. `close()` also cancels a running
 * countdown, so a later update cannot act on a closed door.
 */
module ServoOutput {
  import opened Wrappers
  import opened Devices
  import opened Countdown

  class DoorServoManager {
    const servo: Servo
    var isOpen: bool
    var countdown: int

    /** The countdown as a lease whose holder is present exactly while the door is open. */
    function State(): Lease<()>
      reads this
    {
      Lease(if isOpen then Some(()) else None, countdown)
    }

    constructor (board: Board)
      ensures servo.board == board && servo.pin == DoorPin && !servo.isOpen
      ensures State() == Lease(None, 0)
    {
      servo := new Servo(board, DoorPin);
      isOpen := false;
      countdown := 0;
    }

    /** `open(duration)`: open now, close by itself after `duration` updates. */
    method Open(duration: int)
      modifies this`isOpen, this`countdown, servo`isOpen, servo.board`servos
      ensures State() == Lease(Some(()), duration) && servo.isOpen
      ensures servo.board.servos == old(servo.board.servos)[servo.pin := true]
    {
      servo.Open();
      isOpen := true;
      countdown := duration;
    }

    method Close()
      modifies this`isOpen, this`countdown, servo`isOpen, servo.board`servos
      ensures State() == Lease(None, 0) && !servo.isOpen
      ensures servo.board.servos == old(servo.board.servos)[servo.pin := false]
    {
      servo.Close();
      isOpen := false;
      countdown := 0;
    }

    /** One tick: the update that brings the countdown to 0 closes the door. */
    method Update()
      modifies this`isOpen, this`countdown, servo`isOpen, servo.board`servos
      ensures State() == Tick(old(State()))
      ensures Expiring(old(State())) ==> !servo.isOpen && servo.board.servos == old(servo.board.servos)[servo.pin := false]
      ensures !Expiring(old(State())) ==> servo.isOpen == old(servo.isOpen) && servo.board.servos == old(servo.board.servos)
    {
      if countdown > 0 {
        countdown := countdown - 1;
        if countdown == 0 {
          servo.Close();
          isOpen := false;
        }
      }
    }
  }

  /** The servo driver's `is_open` follows `open` and `close` (esp32/tests/test_servo.py). */
  method ServoTests() returns (afterOpen: bool, afterClose: bool, position: Option<bool>)
    ensures afterOpen && !afterClose && position == Some(false)
  {
    var board := new Board();
    var servo := new Servo(board, DoorPin);
    servo.Open();
    afterOpen := servo.isOpen;
    servo.Close();
    afterClose := servo.isOpen;
    position := if DoorPin in board.servos then Some(board.servos[DoorPin]) else None;
  }

  /**
   * The manager's three test methods on one instance, in the order the suite
   * runs them (their names sorted): `close()` leaves the door closed, `open()`
   * (its default duration is not fixed by the tests) opens it, and after
   * `open(duration=3)` three updates leave countdowns 2, 1, 0 and the door closed.
   */
  method DoorServoManagerTests(defaultDuration: int) returns (closedFirst: bool, openedNext: bool, counts: seq<int>, closedAtEnd: bool)
    ensures closedFirst && openedNext && counts == [2, 1, 0] && closedAtEnd
  {
    var board := new Board();
    var manager := new DoorServoManager(board);
    manager.Close();
    closedFirst := !manager.isOpen;
    manager.Open(defaultDuration);
    openedNext := manager.isOpen;
    manager.Open(3);
    manager.Update();
    counts := [manager.countdown];
    manager.Update();
    counts := counts + [manager.countdown];
    manager.Update();
    counts := counts + [manager.countdown];
    closedAtEnd := !manager.isOpen && board.servos[DoorPin] == false;
  }
}
