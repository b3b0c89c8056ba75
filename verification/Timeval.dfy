/** `Grpc\Timeval`: saturating time values that are either absolute or spans. */
module Timeval {
  import opened Deadline

  datatype Timeval = Timeval(usec: I64, isSpan: bool)

  predicate Infinite(t: Timeval) {
    t.usec == I64_MAX || t.usec == I64_MIN
  }

  function Now(clock: Clock): Timeval { Timeval(clock, false) }

  function Add(a: Timeval, b: Timeval): Timeval {
    if Infinite(a) then a
    else Timeval(SaturatingAdd(a.usec, b.usec), a.isSpan && b.isSpan)
  }

  function Subtract(a: Timeval, b: Timeval): Timeval {
    if Infinite(a) then a
    else Timeval(SaturatingSub(a.usec, b.usec), a.isSpan && b.isSpan)
  }

  function Compare(a: Timeval, b: Timeval): int {
    if a.usec < b.usec then -1 else if a.usec == b.usec then 0 else 1
  }

  predicate Similar(a: Timeval, b: Timeval, threshold: Timeval) {
    SaturatingAbs(SaturatingSub(a.usec, b.usec)) <= SaturatingAbs(threshold.usec)
  }

  /** A span used as a deadline is counted from the clock at call creation. */
  function ToAbsolute(t: Timeval, clock: Clock): I64 {
    if !t.isSpan || t.usec == I64_MAX || t.usec == I64_MIN then t.usec
    else SaturatingAdd(clock, t.usec)
  }

  function Distance(a: int, b: int): nat {
    if a < b then b - a else a - b
  }

  /** Comparison orders times as their microseconds. */
  lemma CompareOrders(a: Timeval, b: Timeval)
    ensures Compare(a, b) == -1 <==> a.usec < b.usec
    ensures Compare(a, b) == 0 <==> a.usec == b.usec
    ensures Compare(a, b) == 1 <==> a.usec > b.usec
    ensures Compare(a, b) == -Compare(b, a)
  {
  }

  /** Adding or subtracting the same value keeps the order of its receivers. */
  lemma ShiftsKeepOrder(a: Timeval, b: Timeval, d: Timeval)
    requires a.usec <= b.usec
    ensures Add(a, d).usec <= Add(b, d).usec
    ensures Subtract(a, d).usec <= Subtract(b, d).usec
  {
  }

  /** Subtract undoes add exactly for infinite receivers, or when the sum stays finite and the kinds agree. */
  lemma SubtractUndoesAdd(a: Timeval, d: Timeval)
    ensures Subtract(Add(a, d), d) == a <==>
            Infinite(a) || (I64_MIN < a.usec + d.usec < I64_MAX && (a.isSpan ==> d.isSpan))
  {
  }

  /** Similarity compares exact distances, both cut off at the largest value; it is symmetric. */
  lemma SimilarIsDistance(a: Timeval, b: Timeval, threshold: Timeval)
    ensures Similar(a, b, threshold) <==>
            Clamp(Distance(a.usec, b.usec)) <= Clamp(Distance(threshold.usec, 0))
    ensures Similar(a, b, threshold) <==> Similar(b, a, threshold)
  {
  }

  /** `now()->add(span)` and the bare span are the same deadline, away from the ends of the range. */
  lemma SpanDeadline(span: Timeval, clock: Clock)
    requires span.isSpan
    ensures ToAbsolute(Add(Now(clock), span), clock) == ToAbsolute(span, clock) <==>
            if clock == I64_MAX then span.usec >= 0 else span.usec != I64_MIN || clock == 0
  {
  }
}
