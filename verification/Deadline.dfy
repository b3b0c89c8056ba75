/** Saturating 64-bit microsecond arithmetic and the call deadline. */
module Deadline {
  import opened Base

  const I64_MAX: int := 0x7fff_ffff_ffff_ffff
  const I64_MIN: int := -0x8000_0000_0000_0000

  type I64 = x: int | I64_MIN <= x <= I64_MAX

  /** A wall-clock reading: microseconds since the epoch. */
  type Clock = x: int | 0 <= x <= I64_MAX

  /** Thirty years of microseconds: the race instant used when no deadline is set. */
  const SENTINEL: int := 86_400 * 365 * 30 * 1_000_000

  function Clamp(x: int): I64 {
    if x > I64_MAX then I64_MAX else if x < I64_MIN then I64_MIN else x
  }

  function SaturatingAdd(a: I64, b: I64): I64 { Clamp(a + b) }

  function SaturatingSub(a: I64, b: I64): I64 { Clamp(a - b) }

  function SaturatingAbs(a: I64): I64 { Clamp(if a < 0 then 0 - a else a) }

  /** The guard shared by every site that looks at the deadline. */
  predicate RealDeadline(deadline: I64) {
    0 < deadline < I64_MAX
  }

  /** The instant every await on the dispatch path races against. */
  function DeadlineInstant(deadline: I64, now: Clock): int {
    if deadline <= 0 || deadline == I64_MAX then now + SENTINEL
    else now + Max(SaturatingSub(deadline, now), 0)
  }

  predicate AlreadyExpired(deadline: I64, now: Clock) {
    deadline > 0 && deadline < I64_MAX && deadline <= now
  }

  /** The timeout attached to the request, when one is attached. */
  function RequestTimeout(deadline: I64, now: Clock): Option<I64> {
    if deadline < I64_MAX && deadline > 0 then Some(Max(SaturatingSub(deadline, now), 1)) else None
  }

  /**
   * Every site agrees on what a real deadline is: the race instant is the later of
   * now and the deadline without overflow, a timeout is sent exactly then and is at
   * least 1, and a call is expired at entry exactly when its race is already over.
   */
  lemma DeadlineSitesAgree(deadline: I64, now: Clock)
    ensures RealDeadline(deadline) ==> DeadlineInstant(deadline, now) == Max(now, deadline) <= I64_MAX
    ensures !RealDeadline(deadline) ==> DeadlineInstant(deadline, now) == now + 946_080_000_000_000
    ensures RequestTimeout(deadline, now).Some? <==> RealDeadline(deadline)
    ensures RealDeadline(deadline) ==>
              RequestTimeout(deadline, now).value == Max(DeadlineInstant(deadline, now) - now, 1) >= 1
    ensures AlreadyExpired(deadline, now) <==> DeadlineInstant(deadline, now) == now
  {
  }
}
