/**
 * `ControlHandler` (esp32/handlers/control_handler.py): turns RFID verdicts
 * and remote commands into calls on the shared output managers. It holds no
 * state of its own. Every handler catches every exception, so a payload that
 * does not decode, is not an object or lacks the key it reads changes nothing.
 *
 * A payload is given as its decoded value, None when `ujson.loads` fails.
 */
module ControlHandler {
  import opened Wrappers
  import opened Json
  import opened Tags
  import opened Devices
  import opened Countdown
  import opened RgbOutput
  import opened OledOutput
  import opened ServoOutput
  import opened BuzzerOutput
  import opened FanOutput

  /** `data[key]` on a decoded payload, None when it would raise. */
  function Field(data: Option<Json>, key: string): Option<Json> {
    match data
    case Some(JObject(m)) => Get(m, key)
    case _ => None
  }

  /** What the RFID verdict asks for. */
  datatype Verdict = AccessGranted | AccessDenied | NoVerdict

  function VerdictOf(data: Option<Json>): (v: Verdict)
    ensures v == AccessGranted <==> Field(data, "access") == Some(JStr("granted"))
    ensures v == AccessDenied <==> Field(data, "access") == Some(JStr("denied"))
  {
    var access := Field(data, "access");
    if access == Some(JStr("granted")) then AccessGranted
    else if access == Some(JStr("denied")) then AccessDenied
    else NoVerdict
  }

  /** Door, window and fan commands are read from the 'action' key only. */
  function ActionOf(data: Option<Json>): (a: Option<string>)
    ensures a.Some? <==> Field(data, "action").Some? && Field(data, "action").value.JStr?
  {
    match Field(data, "action")
    case Some(JStr(s)) => Some(s)
    case _ => None
  }

  class ControlHandler {
    const rgbManager: RGBManager
    const oledManager: OLEDManager
    const doorServoManager: DoorServoManager
    const buzzerManager: BuzzerManager
    /** The board the freshly built window servo and fan drive. */
    const board: Board

    constructor (rgbManager: RGBManager, oledManager: OLEDManager, doorServoManager: DoorServoManager,
                 buzzerManager: BuzzerManager, board: Board)
      ensures this.rgbManager == rgbManager && this.oledManager == oledManager
      ensures this.doorServoManager == doorServoManager && this.buzzerManager == buzzerManager
      ensures this.board == board
    {
      this.rgbManager := rgbManager;
      this.oledManager := oledManager;
      this.doorServoManager := doorServoManager;
      this.buzzerManager := buzzerManager;
      this.board := board;
    }

    /**
     * `handle_rfid_response`: a grant shows green and "ACCESS"/"GRANTED" for 3
     * ticks and opens the door for 5; a denial shows red and "ACCESS"/"DENIED"
     * for 3 and sounds the buzzer for 5. A KeyError from the strip's priority
     * table stops the sequence after the strip.
     */
    method HandleRfidResponse(data: Option<Json>)
      modifies rgbManager, rgbManager.rgb.board`strip
      modifies oledManager`owner, oledManager`countdown, oledManager.display.board`screen
      modifies doorServoManager`isOpen, doorServoManager`countdown, doorServoManager.servo`isOpen,
               doorServoManager.servo.board`servos
      modifies buzzerManager`isRunning, buzzerManager`countdown, buzzerManager.buzzer`isRunning,
               buzzerManager.buzzer.board`buzzing
      ensures var verdict := VerdictOf(data);
        var strip := ShowResultOf(old(rgbManager.State()), Rfid);
        var goesOn := verdict != NoVerdict && strip != RaisedKeyError;
        && rgbManager.State() == (if verdict == NoVerdict then old(rgbManager.State())
                                   else AfterShow(old(rgbManager.State()), Rfid, 3))
        && rgbManager.rgb.board.strip == (if verdict != NoVerdict && strip == Granted
                                          then (if verdict == AccessGranted then Green else Red)
                                          else old(rgbManager.rgb.board.strip))
        && oledManager.State() == (if goesOn && oledManager.admits(old(oledManager.owner), Rfid)
                                   then Lease(Some(Rfid), 3) else old(oledManager.State()))
        && oledManager.display.board.screen == (if goesOn && oledManager.admits(old(oledManager.owner), Rfid)
                                                then TextScreen("ACCESS", if verdict == AccessGranted then "GRANTED" else "DENIED")
                                                else old(oledManager.display.board.screen))
        && doorServoManager.State() == (if goesOn && verdict == AccessGranted then Lease(Some(()), 5)
                                        else old(doorServoManager.State()))
        && buzzerManager.State() == (if goesOn && verdict == AccessDenied then Lease(Some(()), 5)
                                     else old(buzzerManager.State()))
        && buzzerManager.buzzer.board.buzzing == (if goesOn && verdict == AccessDenied then true
                                                  else old(buzzerManager.buzzer.board.buzzing))
      // The door servo and its pin on the board, and the buzzer driver; every other pin keeps its position.
      ensures var opens := VerdictOf(data) == AccessGranted && ShowResultOf(old(rgbManager.State()), Rfid) != RaisedKeyError;
        && doorServoManager.servo.isOpen == (opens || old(doorServoManager.servo.isOpen))
        && doorServoManager.servo.board.servos == (if opens then old(doorServoManager.servo.board.servos)[doorServoManager.servo.pin := true]
                                                   else old(doorServoManager.servo.board.servos))
      ensures var sounds := VerdictOf(data) == AccessDenied && ShowResultOf(old(rgbManager.State()), Rfid) != RaisedKeyError;
        buzzerManager.buzzer.isRunning == (sounds || old(buzzerManager.buzzer.isRunning))
    {
      var verdict := VerdictOf(data);
      if verdict == NoVerdict {
        return;
      }
      var color := if verdict == AccessGranted then Green else Red;
      var text := if verdict == AccessGranted then "GRANTED" else "DENIED";
      var strip := rgbManager.Show(Rfid, color, 3);
      if strip == RaisedKeyError {
        return;
      }
      var _ := oledManager.Show(Rfid, "ACCESS", 3, text);
      if verdict == AccessGranted {
        doorServoManager.Open(5);
      } else {
        buzzerManager.Start(5);
      }
    }

    /** `handle_door_control`: 'open' opens the door for 5 ticks, 'close' closes it at once, whoever opened it. */
    method HandleDoorControl(data: Option<Json>)
      modifies doorServoManager`isOpen, doorServoManager`countdown, doorServoManager.servo`isOpen,
               doorServoManager.servo.board`servos
      ensures doorServoManager.State() == (if ActionOf(data) == Some("open") then Lease(Some(()), 5)
                                           else if ActionOf(data) == Some("close") then Lease(None, 0)
                                           else old(doorServoManager.State()))
      ensures doorServoManager.servo.isOpen == (if ActionOf(data) == Some("open") then true
                                                else if ActionOf(data) == Some("close") then false
                                                else old(doorServoManager.servo.isOpen))
      ensures doorServoManager.servo.board.servos
                == (if ActionOf(data) == Some("open") then old(doorServoManager.servo.board.servos)[doorServoManager.servo.pin := true]
                    else if ActionOf(data) == Some("close") then old(doorServoManager.servo.board.servos)[doorServoManager.servo.pin := false]
                    else old(doorServoManager.servo.board.servos))
    {
      var action := ActionOf(data);
      if action == Some("open") {
        doorServoManager.Open(5);
      } else if action == Some("close") {
        doorServoManager.Close();
      }
    }

    /** `handle_window_control`: a servo built on pin 5 for this call opens or closes the window. */
    method HandleWindowControl(data: Option<Json>)
      modifies board`servos
      ensures board.servos == (if ActionOf(data) == Some("open") then old(board.servos)[WindowPin := true]
                               else if ActionOf(data) == Some("close") then old(board.servos)[WindowPin := false]
                               else old(board.servos))
    {
      var window := new Servo(board, WindowPin);
      var action := ActionOf(data);
      if action == Some("open") {
        window.Open();
      } else if action == Some("close") {
        window.Close();
      }
    }

    /** `handle_fan_control`: a fan driver built for this call switches the motor; no manager hears of it. */
    method HandleFanControl(data: Option<Json>)
      modifies board`fanRunning
      ensures board.fanRunning == (if ActionOf(data) == Some("on") then true
                                   else if ActionOf(data) == Some("off") then false
                                   else old(board.fanRunning))
    {
      var fan := new Fan(board);
      var action := ActionOf(data);
      if action == Some("on") {
        fan.On();
      } else if action == Some("off") {
        fan.TurnOff();
      }
    }
  }

  /** A payload with only a 'state' key, as the dashboard's control button sends, carries no command. */
  lemma StateOnlyPayloadIgnored(state: Json)
    ensures ActionOf(Some(JObject([("state", state)]))) == None
    ensures VerdictOf(Some(JObject([("state", state)]))) == NoVerdict
  {
    var m := [("state", state)];
    assert "state"[1] != "action"[1] && "state"[1] != "access"[1];
    assert m[1..] == [];
    assert Get(m, "action") == None && Get(m, "access") == None;
  }

  /**
   * A fan command through the control topic runs the motor while the fan
   * manager, which never hears of it, still reports off.
   */
  method FanCommandBypassesManager() returns (managerSaysOn: bool, motorRunning: bool)
    ensures !managerSaysOn && motorRunning
  {
    var board := new Board();
    var fanManager := new FanManager(board);
    var rgb := new RGBManager(board);
    var oled := new OLEDManager(board, SameOwnerOnly());
    var door := new DoorServoManager(board);
    var buzzer := new BuzzerManager(board);
    var handler := new ControlHandler(rgb, oled, door, buzzer, board);
    handler.HandleFanControl(Some(JObject([("action", JStr("on"))])));
    managerSaysOn := fanManager.isOn;
    motorRunning := board.fanRunning;
  }

  /** The policy the scenarios below give the display manager: idle or same-owner requests only. */
  function SameOwnerOnly(): (Option<Tag>, Tag) -> bool {
    (holder: Option<Tag>, t: Tag) => holder.None? || holder == Some(t)
  }

  /**
   * An access grant while gas holds the strip: the strip stays red, but the
   * refusal is not an error, so the door still opens and the display still
   * reads "ACCESS"/"GRANTED".
   */
  /** The backend's grant message. */
  function GrantMessage(): (data: Option<Json>)
    ensures VerdictOf(data) == AccessGranted
  {
    var data := Some(JObject([("access", JStr("granted"))]));
    assert Field(data, "access") == Some(JStr("granted"));
    data
  }

  method GrantWhileGasHoldsStrip() returns (strip: Color, doorOpen: bool, screen: Screen)
    ensures strip == Red && doorOpen && screen == Lines("ACCESS", "GRANTED")
  {
    var board := new Board();
    var rgb := new RGBManager(board);
    var oled := new OLEDManager(board, SameOwnerOnly());
    var door := new DoorServoManager(board);
    var buzzer := new BuzzerManager(board);
    var handler := new ControlHandler(rgb, oled, door, buzzer, board);
    var _ := rgb.Show(Gas, Red, 10);
    assert ShowResultOf(rgb.State(), Rfid) == Refused && board.strip == Red;
    assert oled.owner == None && oled.admits(None, Rfid);
    handler.HandleRfidResponse(GrantMessage());
    strip := board.strip;
    doorOpen := door.isOpen;
    screen := board.screen;
  }

  /**
   * A strip held under a tag missing from the priority table makes the next
   * access verdict raise KeyError inside `show`: the handler swallows it and
   * the door never opens.
   */
  method GrantAfterUnknownHolder() returns (doorOpen: bool, screen: Screen)
    ensures !doorOpen && screen == Blank
  {
    var board := new Board();
    var rgb := new RGBManager(board);
    var oled := new OLEDManager(board, SameOwnerOnly());
    var door := new DoorServoManager(board);
    var buzzer := new BuzzerManager(board);
    var handler := new ControlHandler(rgb, oled, door, buzzer, board);
    var _ := rgb.Show(Environment, Orange, 3);
    assert ShowResultOf(rgb.State(), Rfid) == RaisedKeyError;
    assert board.screen == Blank && door.State() == Lease(None, 0);
    handler.HandleRfidResponse(GrantMessage());
    doorOpen := door.isOpen;
    screen := board.screen;
  }
}
