/**
 * `RGBManager` (esp32/outputs/rgb.py): arbitration of the RGB strip between
 * handlers by a static priority table and a per-grant countdown.
 */
module RgbOutput {
  import opened Wrappers
  import opened Tags
  import opened Devices
  import opened Countdown

  /** How a call of `show` ends: True, False, or a KeyError from the priority table. */
  datatype ShowResult = Granted | Refused | RaisedKeyError

  /** The priority table: gas 3, rfid 2, steam 1, motion 0; any other tag is absent. */
  function Priority(t: Tag): Option<nat> {
    match t
    case Gas => Some(3)
    case Rfid => Some(2)
    case Steam => Some(1)
    case Motion => Some(0)
    case _ => None
  }

  /**
   * The decision of `show(t, …)`: an idle strip is granted to any tag without
   * a lookup; a held strip looks up the requester, then the holder, and grants
   * only a strictly higher priority.
   */
  function ShowResultOf(l: Lease<Tag>, t: Tag): ShowResult {
    match l.holder
    case None => Granted
    case Some(h) =>
      if Priority(t).None? || Priority(h).None? then RaisedKeyError
      else if Priority(t).value <= Priority(h).value then Refused
      else Granted
  }

  /** The owner and countdown after `show(t, color, d)`. */
  function AfterShow(l: Lease<Tag>, t: Tag, d: int): Lease<Tag> {
    if ShowResultOf(l, t) == Granted then Lease(Some(t), d) else l
  }

  class RGBManager {
    const rgb: RGB
    var owner: Option<Tag>
    var countdown: int

    function State(): Lease<Tag>
      reads this
    {
      Lease(owner, countdown)
    }

    /** A new manager is idle: no owner, countdown 0. */
    constructor (board: Board)
      ensures rgb.board == board && State() == Lease(None, 0)
    {
      rgb := new RGB(board);
      owner := None;
      countdown := 0;
    }

    method Show(t: Tag, color: Color, duration: int) returns (r: ShowResult)
      modifies this, rgb.board`strip
      ensures r == ShowResultOf(old(State()), t)
      ensures State() == AfterShow(old(State()), t, duration)
      ensures rgb.board.strip == if r == Granted then color else old(rgb.board.strip)
    {
      if owner.Some? {
        if Priority(t).None? || Priority(owner.value).None? {
          return RaisedKeyError;
        }
        if Priority(t).value <= Priority(owner.value).value {
          return Refused;
        }
      }
      owner := Some(t);
      countdown := duration;
      rgb.SetColor(color);
      r := Granted;
    }

    /** One tick: the update that brings the countdown to 0 turns the strip off and clears the owner. */
    method Update()
      modifies this, rgb.board`strip
      ensures State() == Tick(old(State()))
      ensures rgb.board.strip == if Expiring(old(State())) then Off else old(rgb.board.strip)
    {
      if countdown > 0 {
        countdown := countdown - 1;
        if countdown == 0 {
          rgb.TurnOff();
          owner := None;
        }
      }
    }
  }

  /** Gas outranks rfid, which outranks steam, which outranks motion; the display-only tags have no priority. */
  lemma PriorityOrder()
    ensures Priority(Gas).value > Priority(Rfid).value > Priority(Steam).value > Priority(Motion).value
    ensures forall t :: Priority(t).Some? <==> t in {Gas, Rfid, Steam, Motion}
  {
  }

  /** An idle strip is granted to any tag, even one missing from the table, with the requested duration. */
  lemma IdleStripGranted(c: int, t: Tag, d: int)
    ensures ShowResultOf(Lease(None, c), t) == Granted
    ensures AfterShow(Lease(None, c), t, d) == Lease(Some(t), d)
  {
  }

  /** A held strip is granted exactly to a strictly higher priority; equal priority, the holder itself included, is refused. */
  lemma HeldStripArbitration(l: Lease<Tag>, t: Tag)
    requires l.holder.Some? && Priority(t).Some? && Priority(l.holder.value).Some?
    ensures ShowResultOf(l, t) == Granted <==> Priority(t).value > Priority(l.holder.value).value
    ensures ShowResultOf(l, t) == Refused <==> Priority(t).value <= Priority(l.holder.value).value
    ensures ShowResultOf(l, t) == Refused ==> AfterShow(l, t, 0) == l
  {
  }

  /** The holder asking again is refused, so a re-request cannot refresh its own countdown. */
  lemma SameOwnerRefused(t: Tag, c: int, d: int)
    requires Priority(t).Some?
    ensures ShowResultOf(Lease(Some(t), c), t) == Refused
    ensures AfterShow(Lease(Some(t), c), t, d) == Lease(Some(t), c)
  {
  }

  /** While gas holds the strip, no request succeeds. */
  lemma GasIsNeverPreempted(c: int, t: Tag, d: int)
    ensures ShowResultOf(Lease(Some(Gas), c), t) != Granted
    ensures AfterShow(Lease(Some(Gas), c), t, d) == Lease(Some(Gas), c)
  {
  }

  /** A held strip raises KeyError exactly when the requester or the holder is missing from the table. */
  lemma UnknownTagRaises(l: Lease<Tag>, t: Tag)
    requires l.holder.Some?
    ensures ShowResultOf(l, t) == RaisedKeyError <==> Priority(t).None? || Priority(l.holder.value).None?
  {
  }

  /**
   * After a grant of duration d > 0 on an idle strip and no further `show`:
   * the owner is still set after d - 1 updates and cleared after d.
   */
  lemma GrantExpiresAfterDuration(c: int, t: Tag, d: int)
    requires d > 0
    ensures Ticks(AfterShow(Lease(None, c), t, d), d - 1) == Lease(Some(t), 1)
    ensures Ticks(AfterShow(Lease(None, c), t, d), d) == Lease(None, 0)
  {
    var l := AfterShow(Lease(None, c), t, d);
    HeldBeforeExpiry(l, d - 1);
    ReleasedAtExpiry(l, d);
  }

  /** A grant of duration 0 (or less) is never released by updates. */
  lemma ZeroDurationNeverReleased(c: int, t: Tag, d: int, k: nat)
    requires d <= 0
    ensures Ticks(AfterShow(Lease(None, c), t, d), k).holder == Some(t)
  {
    InertCountdown(AfterShow(Lease(None, c), t, d), k);
  }

  /**
   * The two test methods of esp32/tests/test_rgb.py run on one manager: the
   * first grant succeeds; the second `show('gas', …, 1)` is refused, as its
   * own owner still holds the strip, and one update still ends at countdown 0.
   */
  method RgbManagerTests() returns (first: ShowResult, second: ShowResult, countdown: int, strip: Color)
    ensures first == Granted && second == Refused && countdown == 0 && strip == Off
  {
    var board := new Board();
    var manager := new RGBManager(board);
    first := manager.Show(Gas, Red, 1);
    second := manager.Show(Gas, Red, 1);
    manager.Update();
    countdown := manager.countdown;
    strip := board.strip;
  }
}
