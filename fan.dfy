/**
 * `FanManager` (esp32/outputs/fan.py): a plain on/off flag over the fan
 * driver, with no owner, no countdown and an `update` that does nothing.
 */
module FanOutput {
  import opened Wrappers
  import opened Devices

  class FanManager {
    const fan: Fan
    var isOn: bool

    /** A new manager reports off, and its fan has not been commanded yet. */
    constructor (board: Board)
      ensures fan.board == board && fan.isOn == None && !isOn
    {
      fan := new Fan(board);
      isOn := false;
    }

    method On()
      modifies this`isOn, fan`isOn, fan.board`fanRunning
      ensures isOn && fan.isOn == Some(true) && fan.board.fanRunning
    {
      fan.On();
      isOn := true;
    }

    method TurnOff()
      modifies this`isOn, fan`isOn, fan.board`fanRunning
      ensures !isOn && fan.isOn == Some(false) && !fan.board.fanRunning
    {
      fan.TurnOff();
      isOn := false;
    }

    /** `update()` is a no-op: the fan has nothing to count down. */
    method Update()
      ensures isOn == old(isOn) && fan.isOn == old(fan.isOn) && fan.board.fanRunning == old(fan.board.fanRunning)
    {
    }
  }

  /**
   * The fan driver's flag is None before any command and follows the last
   * command afterwards (esp32/tests/test_fan.py).
   */
  method FanTests() returns (initially: Option<bool>, afterOn: Option<bool>, afterOff: Option<bool>)
    ensures initially == None && afterOn == Some(true) && afterOff == Some(false)
  {
    var board := new Board();
    var fan := new Fan(board);
    initially := fan.IsOn();
    fan.On();
    afterOn := fan.IsOn();
    fan.TurnOff();
    afterOff := fan.IsOn();
  }

  /**
   * The manager starts off; `on` and `off` are idempotent, and `update`
   * between them changes nothing.
   */
  method FanManagerRepeats() returns (initially: bool, onTwice: bool, afterUpdate: bool, offTwice: bool, running: bool)
    ensures !initially && onTwice && afterUpdate && !offTwice && !running
  {
    var board := new Board();
    var manager := new FanManager(board);
    initially := manager.isOn;
    manager.On();
    manager.On();
    onTwice := manager.isOn;
    manager.Update();
    afterUpdate := manager.isOn;
    manager.TurnOff();
    manager.TurnOff();
    offTwice := manager.isOn;
    running := board.fanRunning;
  }
}
