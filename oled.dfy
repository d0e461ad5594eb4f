/**
 * `OLEDManager`: the display's owner/countdown manager. Its source is not
 * part of this model; its behaviour is the one esp32/tests/test_oled.py and
 * the handlers' calls fix. Whether a held display is handed to another tag
 * is not fixed by them, so the manager takes that decision as a parameter
 * `admits(holder, tag)`, required only to grant an idle display to any tag
 * and a held display to its own holder (the tests rely on both).
 */
module OledOutput {
  import opened Wrappers
  import opened Tags
  import opened Devices
  import opened Countdown

  /** The two grants the tests rely on. */
  predicate AdmitsTestedGrants(admits: (Option<Tag>, Tag) -> bool) {
    && (forall t :: admits(None, t))
    && (forall t :: admits(Some(t), t))
  }

  /** One `show(owner, line1, duration, line2)` call as a caller makes it. */
  datatype DisplayRequest = DisplayRequest(owner: Tag, line1: string, duration: int, line2: string)

  /** The manager's owner and countdown together with what the display shows. */
  datatype Display = Display(lease: Lease<Tag>, screen: Screen)

  /** What one request leaves: a granted request takes the display and shows its lines; a refused one changes nothing. */
  function AfterRequest(admits: (Option<Tag>, Tag) -> bool, d: Display, r: DisplayRequest): Display {
    if admits(d.lease.holder, r.owner) then Display(Lease(Some(r.owner), r.duration), TextScreen(r.line1, r.line2))
    else d
  }

  /** What a sequence of requests leaves, applied in order. */
  function AfterRequests(admits: (Option<Tag>, Tag) -> bool, d: Display, rs: seq<DisplayRequest>): Display
    decreases |rs|
  {
    if rs == [] then d else AfterRequests(admits, AfterRequest(admits, d, rs[0]), rs[1..])
  }

  /** Requests applied in two batches leave what the whole sequence leaves. */
  lemma {:induction false} RequestsCompose(admits: (Option<Tag>, Tag) -> bool, d: Display, first: seq<DisplayRequest>, rest: seq<DisplayRequest>)
    ensures AfterRequests(admits, d, first + rest) == AfterRequests(admits, AfterRequests(admits, d, first), rest)
    decreases |first|
  {
    if first == [] {
      assert first + rest == rest;
    } else {
      assert (first + rest)[1..] == first[1..] + rest;
      RequestsCompose(admits, AfterRequest(admits, d, first[0]), first[1..], rest);
    }
  }

  class OLEDManager {
    const display: Oled
    const admits: (Option<Tag>, Tag) -> bool
    var owner: Option<Tag>
    var countdown: int

    function State(): Lease<Tag>
      reads this
    {
      Lease(owner, countdown)
    }

    function Shown(): Display
      reads this, display.board
    {
      Display(State(), display.board.screen)
    }

    /** A new manager is idle. */
    constructor (board: Board, admits: (Option<Tag>, Tag) -> bool)
      requires AdmitsTestedGrants(admits)
      ensures display.board == board && this.admits == admits && State() == Lease(None, 0)
    {
      display := new Oled(board);
      this.admits := admits;
      owner := None;
      countdown := 0;
    }

    /** `show(owner, line1, duration, line2="")`: a grant takes the display for `duration` updates and shows the two lines. */
    method Show(t: Tag, line1: string, duration: int, line2: string) returns (shown: bool)
      modifies this`owner, this`countdown, display.board`screen
      ensures shown == admits(old(owner), t)
      ensures State() == if shown then Lease(Some(t), duration) else old(State())
      ensures display.board.screen == if shown then TextScreen(line1, line2) else old(display.board.screen)
      ensures Shown() == AfterRequest(admits, old(Shown()), DisplayRequest(t, line1, duration, line2))
    {
      shown := admits(owner, t);
      if shown {
        owner := Some(t);
        countdown := duration;
        var _ := display.ShowText(line1, line2);
      }
    }

    /** One tick: the update that brings the countdown to 0 clears the display and the owner. */
    method Update()
      modifies this`owner, this`countdown, display.board`screen
      ensures State() == Tick(old(State()))
      ensures display.board.screen == if Expiring(old(State())) then Blank else old(display.board.screen)
    {
      if countdown > 0 {
        countdown := countdown - 1;
        if countdown == 0 {
          var _ := display.Clear();
          owner := None;
        }
      }
    }
  }

  /**
   * The display driver's two test methods on one instance, in the order the
   * suite runs them (their names sorted): `clear` and then `show_text` both
   * report success, and the text stays on the display.
   */
  method OledTests() returns (cleared: bool, shown: bool, screen: Screen)
    ensures cleared && shown && screen == Lines("Hello", "World!")
  {
    var board := new Board();
    var display := new Oled(board);
    cleared := display.Clear();
    shown := display.ShowText("Hello", "World!");
    screen := board.screen;
  }

  /**
   * The manager's two test methods run on one instance: `show('gas', "Hello", 1)`
   * is granted; `show('gas', "Hello", 3)` by the same owner is granted again,
   * and three updates leave countdowns 2, 1, 0 with the owner cleared.
   */
  method OledManagerTests(admits: (Option<Tag>, Tag) -> bool)
    returns (first: bool, second: bool, counts: seq<int>, owner: Option<Tag>, screen: Screen)
    requires AdmitsTestedGrants(admits)
    ensures first && second && counts == [2, 1, 0] && owner == None && screen == Blank
  {
    var board := new Board();
    var manager := new OLEDManager(board, admits);
    first := manager.Show(Gas, "Hello", 1, "");
    second := manager.Show(Gas, "Hello", 3, "");
    manager.Update();
    counts := [manager.countdown];
    manager.Update();
    counts := counts + [manager.countdown];
    manager.Update();
    counts := counts + [manager.countdown];
    owner := manager.owner;
    screen := board.screen;
  }
}
