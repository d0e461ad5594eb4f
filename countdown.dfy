/**
 * The owner/countdown shape shared by the output managers (RGBManager in
 * esp32/outputs/rgb.py, and the OLED, door-servo and buzzer managers whose
 * behaviour their tests fix).
 *
 * A grant records a holder and a countdown. Each `update()` decrements a
 * positive countdown by one, and the update that brings it to 0 releases the
 * holder. A countdown of 0 (or below) is never decremented, so a grant of
 * duration 0 is held until something else replaces it.
 */
module Countdown {
  import opened Wrappers

  datatype Lease<H> = Lease(holder: Option<H>, countdown: int)

  /** Whether the next `update()` is the one that releases. */
  predicate Expiring<H>(l: Lease<H>) {
    l.countdown == 1
  }

  /** One `update()`. */
  function Tick<H>(l: Lease<H>): Lease<H> {
    if l.countdown > 0 then Lease(if l.countdown - 1 == 0 then None else l.holder, l.countdown - 1)
    else l
  }

  /** `k` successive `update()` calls with no other call in between. */
  function Ticks<H>(l: Lease<H>, k: nat): Lease<H>
    decreases k
  {
    if k == 0 then l else Ticks(Tick(l), k - 1)
  }

  /** A tick never raises the countdown and never lets it go below 0 once it started positive. */
  lemma TickBounds<H>(l: Lease<H>)
    ensures Tick(l).countdown <= l.countdown
    ensures l.countdown > 0 ==> Tick(l).countdown == l.countdown - 1 >= 0
    ensures l.countdown <= 0 ==> Tick(l) == l
    ensures Tick(l).holder.Some? ==> Tick(l).holder == l.holder
  {
  }

  /** A countdown of 0 or less is inert: no number of updates changes the lease. */
  lemma {:induction false} InertCountdown<H>(l: Lease<H>, k: nat)
    requires l.countdown <= 0
    decreases k
    ensures Ticks(l, k) == l
  {
    if k > 0 {
      InertCountdown(Tick(l), k - 1);
    }
  }

  /** While fewer than `countdown` updates have run, the holder stays and the count drops by one per update. */
  lemma {:induction false} HeldBeforeExpiry<H>(l: Lease<H>, k: nat)
    requires k < l.countdown
    decreases k
    ensures Ticks(l, k) == Lease(l.holder, l.countdown - k)
  {
    if k > 0 {
      HeldBeforeExpiry(Tick(l), k - 1);
    }
  }

  /** After exactly `countdown` updates the lease is released with countdown 0, and stays so. */
  lemma {:induction false} ReleasedAtExpiry<H>(l: Lease<H>, k: nat)
    requires 0 < l.countdown <= k
    decreases k
    ensures Ticks(l, k) == Lease(None, 0)
  {
    if l.countdown == 1 {
      InertCountdown(Tick(l), k - 1);
    } else {
      ReleasedAtExpiry(Tick(l), k - 1);
    }
  }

  /** The releasing update is the only one that clears a holder. */
  lemma ReleaseOnlyOnExpiry<H>(l: Lease<H>)
    ensures l.holder.Some? && Tick(l).holder.None? <==> l.holder.Some? && Expiring(l)
  {
  }
}
