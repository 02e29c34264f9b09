/** Deadlines as the kernel takes them: `compute_reltime` (pthread/lowlevellock.c). */
module Reltime {

  datatype Timespec = Timespec(sec: int, nsec: int)

  predicate Normalised(t: Timespec) { 0 <= t.nsec < 1_000_000_000 }

  /** Nanoseconds from `now` until the deadline. */
  function Until(deadline: Timespec, now: Timespec): int {
    (deadline.sec - now.sec) * 1_000_000_000 + deadline.nsec - now.nsec
  }

  /** Conversion to a 32-bit `int`. */
  function ToInt(x: int): int {
    var low := x % 0x1_0000_0000;
    if low < 0x8000_0000 then low else low - 0x1_0000_0000
  }

  /** A deadline less than 2^31 milliseconds away becomes the whole milliseconds left, one that has passed -1. Callers
      take a negative result for a timeout: so they do for a deadline further away whenever bit 31 of its milliseconds
      is set, and for no other. The result is an `int`, and equal to the milliseconds modulo 2^32. */
  method ComputeReltime(deadline: Timespec, now: Timespec) returns (r: int)
    requires Normalised(deadline) && Normalised(now)
    ensures Until(deadline, now) < 0 ==> r == -1
    ensures 0 <= Until(deadline, now) < 0x8000_0000 * 1_000_000 ==>
      0 <= r && 0 <= Until(deadline, now) - r * 1_000_000 < 1_000_000
    ensures r < 0 <==> Until(deadline, now) < 0 || Until(deadline, now) / 1_000_000 % 0x1_0000_0000 >= 0x8000_0000
    ensures -0x8000_0000 <= r < 0x8000_0000
    ensures Until(deadline, now) >= 0 ==> (Until(deadline, now) / 1_000_000 - r) % 0x1_0000_0000 == 0
  {
    var sec, nsec := deadline.sec - now.sec, deadline.nsec - now.nsec;
    if nsec < 0 {
      sec := sec - 1;
      nsec := nsec + 1_000_000_000;
    }
    Milliseconds(sec, nsec);
    assert Until(deadline, now) == sec * 1_000_000_000 + nsec;
    r := if sec < 0 then -1 else ToInt(sec * 1000 + nsec / 1_000_000);
  }

  lemma Milliseconds(sec: int, nsec: int)
    requires 0 <= nsec < 1_000_000_000
    ensures (sec * 1_000_000_000 + nsec) / 1_000_000 == sec * 1000 + nsec / 1_000_000
  {}
}
