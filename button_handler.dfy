/**
 * `ButtonHandler` (esp32/handlers/button_handler.py): two push buttons, one
 * arming the gas alarm and one the motion sensor. Each poll reads both
 * buttons, registers a press only on a released-to-pressed edge, and flips
 * the matching flag once per press, announcing the new state on the display.
 *
 * Readings are parameters: `gasDown`/`pirDown` are what `is_pressed()`
 * returns in this poll. A button's state is 1 when released and 0 when
 * pressed, as in the source.
 */
module ButtonHandler {
  import opened Wrappers
  import opened Tags
  import opened Devices
  import opened OledOutput

  /** One button's three fields. */
  datatype Channel = Channel(enabled: bool, lastState: int, pressed: bool)

  /** A channel at start-up: enabled, released, no pending press. */
  const Initial: Channel := Channel(true, 1, false)

  /** The edge-detection half of a poll. */
  function Sense(c: Channel, down: bool): Channel {
    var current := if down then 0 else 1;
    Channel(c.enabled, current, c.pressed || (c.lastState == 1 && current == 0))
  }

  /** The toggle half of a poll: a registered press flips the flag and is consumed. */
  function Toggle(c: Channel): Channel {
    if c.pressed then Channel(!c.enabled, c.lastState, false) else c
  }

  function Step(c: Channel, down: bool): Channel {
    Toggle(Sense(c, down))
  }

  /** Whether this poll toggles the channel. */
  predicate Toggles(c: Channel, down: bool) {
    Sense(c, down).pressed
  }

  function StatusText(enabled: bool): string {
    if enabled then "Enabled" else "Disabled"
  }

  /** The display requests one poll makes: gas first, then the motion sensor. */
  function Announcements(gas: Channel, pir: Channel, gasDown: bool, pirDown: bool): seq<DisplayRequest> {
    (if Toggles(gas, gasDown) then [DisplayRequest(Button, "Gas Alarm", 3, StatusText(Step(gas, gasDown).enabled))] else [])
    + (if Toggles(pir, pirDown) then [DisplayRequest(Button, "Motion Sensor", 3, StatusText(Step(pir, pirDown).enabled))] else [])
  }

  class ButtonHandler {
    var gasAlarmEnabled: bool
    var pirEnabled: bool
    var gasButtonLastState: int
    var pirButtonLastState: int
    var gasButtonPressed: bool
    var pirButtonPressed: bool

    function GasChannel(): Channel
      reads this
    {
      Channel(gasAlarmEnabled, gasButtonLastState, gasButtonPressed)
    }

    function PirChannel(): Channel
      reads this
    {
      Channel(pirEnabled, pirButtonLastState, pirButtonPressed)
    }

    constructor ()
      ensures GasChannel() == Initial && PirChannel() == Initial
    {
      gasAlarmEnabled := true;
      pirEnabled := true;
      gasButtonLastState := 1;
      pirButtonLastState := 1;
      gasButtonPressed := false;
      pirButtonPressed := false;
    }

    /** The edge-detection half of `handle_buttons`: both buttons are read and their edges recorded. */
    method SenseButtons(gasDown: bool, pirDown: bool)
      modifies this`gasButtonLastState, this`gasButtonPressed, this`pirButtonLastState, this`pirButtonPressed
      ensures GasChannel() == Sense(old(GasChannel()), gasDown)
      ensures PirChannel() == Sense(old(PirChannel()), pirDown)
    {
      var gasCurrent := if gasDown then 0 else 1;
      if gasButtonLastState == 1 && gasCurrent == 0 {
        gasButtonPressed := true;
      }
      gasButtonLastState := gasCurrent;

      var pirCurrent := if pirDown then 0 else 1;
      if pirButtonLastState == 1 && pirCurrent == 0 {
        pirButtonPressed := true;
      }
      pirButtonLastState := pirCurrent;
    }

    /** A registered gas-button press flips the gas alarm and announces it. */
    method ToggleGas(oled: OLEDManager) returns (requests: seq<DisplayRequest>)
      modifies this`gasAlarmEnabled, this`gasButtonPressed, oled`owner, oled`countdown, oled.display.board`screen
      ensures GasChannel() == Toggle(old(GasChannel())) && PirChannel() == old(PirChannel())
      ensures requests == if old(gasButtonPressed) then [DisplayRequest(Button, "Gas Alarm", 3, StatusText(gasAlarmEnabled))] else []
      ensures oled.Shown() == AfterRequests(oled.admits, old(oled.Shown()), requests)
    {
      requests := [];
      if gasButtonPressed {
        gasAlarmEnabled := !gasAlarmEnabled;
        gasButtonPressed := false;
        var request := DisplayRequest(Button, "Gas Alarm", 3, StatusText(gasAlarmEnabled));
        var _ := oled.Show(request.owner, request.line1, request.duration, request.line2);
        requests := [request];
        assert requests[1..] == [];
      }
    }

    /** A registered motion-button press flips the motion sensor and announces it. */
    method TogglePir(oled: OLEDManager) returns (requests: seq<DisplayRequest>)
      modifies this`pirEnabled, this`pirButtonPressed, oled`owner, oled`countdown, oled.display.board`screen
      ensures PirChannel() == Toggle(old(PirChannel())) && GasChannel() == old(GasChannel())
      ensures requests == if old(pirButtonPressed) then [DisplayRequest(Button, "Motion Sensor", 3, StatusText(pirEnabled))] else []
      ensures oled.Shown() == AfterRequests(oled.admits, old(oled.Shown()), requests)
    {
      requests := [];
      if pirButtonPressed {
        pirEnabled := !pirEnabled;
        pirButtonPressed := false;
        var request := DisplayRequest(Button, "Motion Sensor", 3, StatusText(pirEnabled));
        var _ := oled.Show(request.owner, request.line1, request.duration, request.line2);
        requests := [request];
        assert requests[1..] == [];
      }
    }

    /** `handle_buttons(oled_manager)`: one poll of both buttons. */
    method HandleButtons(gasDown: bool, pirDown: bool, oled: OLEDManager) returns (requests: seq<DisplayRequest>)
      modifies this, oled`owner, oled`countdown, oled.display.board`screen
      ensures GasChannel() == Step(old(GasChannel()), gasDown)
      ensures PirChannel() == Step(old(PirChannel()), pirDown)
      ensures requests == Announcements(old(GasChannel()), old(PirChannel()), gasDown, pirDown)
      ensures oled.Shown() == AfterRequests(oled.admits, old(oled.Shown()), requests)
    {
      ghost var before := oled.Shown();
      SenseButtons(gasDown, pirDown);
      var gasRequests := ToggleGas(oled);
      var pirRequests := TogglePir(oled);
      RequestsCompose(oled.admits, before, gasRequests, pirRequests);
      requests := gasRequests + pirRequests;
    }
  }

  /**
   * With no press pending (as after every poll), a poll toggles exactly on a
   * released-to-pressed edge; it always records the reading and leaves no press pending.
   */
  lemma EdgeTriggered(c: Channel, down: bool)
    requires !c.pressed
    ensures Toggles(c, down) <==> c.lastState == 1 && down
    ensures Step(c, down).enabled == (c.enabled != (c.lastState == 1 && down))
    ensures Step(c, down).lastState == (if down then 0 else 1) && !Step(c, down).pressed
  {
  }

  /** A run of polls of one button. */
  function Run(c: Channel, downs: seq<bool>): Channel
    decreases |downs|
  {
    if downs == [] then c else Run(Step(c, downs[0]), downs[1..])
  }

  /** How many of those polls toggle the flag. */
  function ToggleCount(c: Channel, downs: seq<bool>): nat
    decreases |downs|
  {
    if downs == [] then 0 else (if Toggles(c, downs[0]) then 1 else 0) + ToggleCount(Step(c, downs[0]), downs[1..])
  }

  /** Holding an already pressed button never toggles again. */
  lemma {:induction false} HeldDoesNotToggle(c: Channel, k: nat)
    requires c.lastState == 0 && !c.pressed
    ensures ToggleCount(c, seq(k, _ => true)) == 0 && Run(c, seq(k, _ => true)) == c
    decreases k
  {
    if k > 0 {
      assert seq(k, _ => true)[1..] == seq(k - 1, _ => true);
      HeldDoesNotToggle(Step(c, true), k - 1);
    }
  }

  /** Holding a released button down for k >= 1 polls toggles it exactly once. */
  lemma HoldTogglesOnce(c: Channel, k: nat)
    requires c.lastState == 1 && !c.pressed && k >= 1
    ensures ToggleCount(c, seq(k, _ => true)) == 1
    ensures Run(c, seq(k, _ => true)).enabled == !c.enabled
  {
    assert seq(k, _ => true)[0] && seq(k, _ => true)[1..] == seq(k - 1, _ => true);
    HeldDoesNotToggle(Step(c, true), k - 1);
  }

  /** The flag after a run is the starting flag flipped once per toggle. */
  lemma {:induction false} FlagParity(c: Channel, downs: seq<bool>)
    requires !c.pressed
    ensures Run(c, downs).enabled == (c.enabled != (ToggleCount(c, downs) % 2 == 1))
    decreases |downs|
  {
    if downs != [] {
      FlagParity(Step(c, downs[0]), downs[1..]);
    }
  }

  /**
   * A press and release of the gas button, with the motion button untouched:
   * the gas alarm goes to disabled once, the motion sensor stays enabled, and
   * the only announcement is "Gas Alarm"/"Disabled".
   */
  method GasButtonPressAndRelease(admits: (Option<Tag>, Tag) -> bool)
    returns (gasEnabled: bool, pirEnabled: bool, announced: seq<DisplayRequest>)
    requires AdmitsTestedGrants(admits)
    ensures !gasEnabled && pirEnabled
    ensures announced == [DisplayRequest(Button, "Gas Alarm", 3, "Disabled")]
  {
    var board := new Board();
    var oled := new OLEDManager(board, admits);
    var handler := new ButtonHandler();
    var first := handler.HandleButtons(true, false, oled);
    var second := handler.HandleButtons(true, false, oled);
    var third := handler.HandleButtons(false, false, oled);
    gasEnabled := handler.gasAlarmEnabled;
    pirEnabled := handler.pirEnabled;
    announced := first + second + third;
  }
}
