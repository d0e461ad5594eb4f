/**
 * The ESP32 board's outputs as abstract state, and the thin drivers the
 * firmware builds over them (the drivers under esp32/outputs and esp32/display/oled.py).
 *
 * Every driver object addresses the same physical board: two `RGB()` objects
 * built in different handlers drive the same four-pixel strip on pin 26. The
 * model makes that sharing explicit with one `Board` object whose fields are
 * the observable outputs, and drivers that hold a reference to it.
 */
module Devices {
  import opened Wrappers

  /** An RGB triple as `set_color(r, g, b)` receives it. */
  datatype Color = Color(r: int, g: int, b: int)

  const Off: Color := Color(0, 0, 0)
  const Red: Color := Color(255, 0, 0)
  const Green: Color := Color(0, 255, 0)
  const Orange: Color := Color(255, 165, 0)

  /** What the two-line character display shows. */
  datatype Screen = Blank | Lines(top: string, bottom: string)

  /** Servo pins used by the firmware: the door servo and the window servo. */
  const DoorPin: int := 13
  const WindowPin: int := 5

  /** Columns of the display: `show_text` cuts each line to this many characters. */
  const Columns: nat := 16

  /** Python's `s[:n]`. */
  function Prefix(s: string, n: nat): (r: string)
    ensures |r| <= n && r <= s
    ensures |s| <= n ==> r == s
  {
    if |s| <= n then s else s[..n]
  }

  class Board {
    /** Colour of the whole strip (all four pixels are always filled alike). */
    var strip: Color
    /** Whether the fan motor is driven (duty 700 on pin 18). */
    var fanRunning: bool
    /** Last position commanded on each servo pin: true for open (duty 128), false for closed (duty 25). */
    var servos: map<int, bool>
    /** Whether the buzzer is sounding (duty 10 at 1 kHz). */
    var buzzing: bool
    var screen: Screen

    /** A board at power-up: nothing lit, driven or shown, no servo commanded yet. */
    constructor ()
      ensures strip == Off && !fanRunning && servos == map[] && !buzzing && screen == Blank
    {
      strip := Off;
      fanRunning := false;
      servos := map[];
      buzzing := false;
      screen := Blank;
    }
  }

  /** `RGB`: the NeoPixel strip on pin 26. */
  class RGB {
    const board: Board

    constructor (board: Board)
      ensures this.board == board
    {
      this.board := board;
    }

    method SetColor(c: Color)
      modifies board`strip
      ensures board.strip == c
    {
      board.strip := c;
    }

    method TurnOff()
      modifies board`strip
      ensures board.strip == Off
    {
      board.strip := Off;
    }
  }

  /** `Fan`: the motor on pins 19/18, with its own record of the last command. */
  class Fan {
    const board: Board
    /** `_is_on`: None until the first `on` or `off`. */
    var isOn: Option<bool>

    constructor (board: Board)
      ensures this.board == board && isOn == None
    {
      this.board := board;
      isOn := None;
    }

    method On()
      modifies this`isOn, board`fanRunning
      ensures isOn == Some(true) && board.fanRunning
    {
      board.fanRunning := true;
      isOn := Some(true);
    }

    method TurnOff()
      modifies this`isOn, board`fanRunning
      ensures isOn == Some(false) && !board.fanRunning
    {
      board.fanRunning := false;
      isOn := Some(false);
    }

    /** `is_on()`: the last command, or None before any. */
    method IsOn() returns (r: Option<bool>)
      ensures r == isOn
    {
      r := isOn;
    }
  }

  /** `Servo(pin)`, with the `is_open` flag its tests read. */
  class Servo {
    const board: Board
    const pin: int
    var isOpen: bool

    constructor (board: Board, pin: int)
      ensures this.board == board && this.pin == pin && !isOpen
    {
      this.board := board;
      this.pin := pin;
      isOpen := false;
    }

    method Open()
      modifies this`isOpen, board`servos
      ensures isOpen && board.servos == old(board.servos)[pin := true]
    {
      board.servos := board.servos[pin := true];
      isOpen := true;
    }

    method Close()
      modifies this`isOpen, board`servos
      ensures !isOpen && board.servos == old(board.servos)[pin := false]
    {
      board.servos := board.servos[pin := false];
      isOpen := false;
    }
  }

  /** `Buzzer`: the piezo on pin 25, silenced when the driver is built. */
  class Buzzer {
    const board: Board
    var isRunning: bool

    constructor (board: Board)
      modifies board`buzzing
      ensures this.board == board && !isRunning && !board.buzzing
    {
      this.board := board;
      isRunning := false;
      new;
      board.buzzing := false;
    }

    method Start()
      modifies this`isRunning, board`buzzing
      ensures isRunning && board.buzzing
    {
      board.buzzing := true;
      isRunning := true;
    }

    method Stop()
      modifies this`isRunning, board`buzzing
      ensures !isRunning && !board.buzzing
    {
      board.buzzing := false;
      isRunning := false;
    }
  }

  /** What `show_text(line1, line2)` leaves on the display: each line cut to 16 columns, an empty second line left blank. */
  function TextScreen(line1: string, line2: string): (s: Screen)
    ensures s.Lines? && |s.top| <= Columns && |s.bottom| <= Columns
    ensures s.top <= line1 && s.bottom <= line2
    ensures line2 == "" ==> s.bottom == ""
  {
    Lines(Prefix(line1, Columns), if line2 != "" then Prefix(line2, Columns) else "")
  }

  /** `OLED`: the 16x2 character display on the I2C bus. */
  class Oled {
    const board: Board

    constructor (board: Board)
      ensures this.board == board
    {
      this.board := board;
    }

    /** `show_text`, reporting success with true as its tests expect. */
    method ShowText(line1: string, line2: string) returns (ok: bool)
      modifies board`screen
      ensures ok && board.screen == TextScreen(line1, line2)
    {
      board.screen := TextScreen(line1, line2);
      ok := true;
    }

    /** `clear`, reporting success with true as its tests expect. */
    method Clear() returns (ok: bool)
      modifies board`screen
      ensures ok && board.screen == Blank
    {
      board.screen := Blank;
      ok := true;
    }
  }
}
