/** Absolute times of my_pthread.h, in 64-bit arithmetic. */
module Timespec {

  import opened Bits

  const M64 := 0x1_0000_0000_0000_0000
  const M63 := 0x8000_0000_0000_0000
  const NANO := 1_000_000_000

  /** The moduli of 64-bit arithmetic. */
  lemma Moduli()
    ensures M64 == Pow2(64) && M63 == Pow2(63) && 2 * M63 == M64
  {
    Pow64();
  }

  datatype Time = Time(sec: int, nsec: int)

  predicate Normal(t: Time) {
    0 <= t.nsec < NANO
  }

  function Total(t: Time): int {
    t.sec * NANO + t.nsec
  }

  /** A struct timespec that set_timespec_time_nsec assigns to. */
  class AbsTime {
    var tvSec: int
    var tvNsec: int

    function Value(): Time
      reads this
    {
      Time(tvSec, tvNsec)
    }

    /** time counts 100 nanoseconds; both arguments are ulonglong. */
    method SetTimeNsec(time: nat, nanos: nat)
      requires time < M64 && nanos < M64
      modifies this
      ensures Normal(Value())
      ensures Total(Value()) == time * 100 + nanos - (if time + nanos / 100 < M64 then 0 else M64 * 100)
    {
      var nsec := nanos;
      var now := (time + nsec / 100) % M64;
      tvSec := now / 10000000;
      tvNsec := now % 10000000 * 100 + nsec % 100;
      assert now == time + nsec / 100 - (if time + nanos / 100 < M64 then 0 else M64);
    }
  }

  function CmpTimespec(a: Time, b: Time): int {
    if a.sec > b.sec || (a.sec == b.sec && a.nsec > b.nsec) then 1
    else if a.sec < b.sec || (a.sec == b.sec && a.nsec < b.nsec) then -1
    else 0
  }

  /** ulonglong arithmetic: every operation modulo 2^64. */
  function DiffTimespec(a: Time, b: Time): nat {
    ((((a.sec - b.sec) % M64 * NANO) % M64 + a.nsec) % M64 - b.nsec) % M64
  }

  /** The same pattern read as a signed 64-bit number. */
  function Signed(v: nat): int
    requires v < M64
  {
    if v < M63 then v else v - M64
  }

  function Sign(v: int): int {
    if v > 0 then 1 else if v < 0 then -1 else 0
  }

  /** On normalised times the comparison is that of total nanoseconds. */
  lemma CmpIsTotalOrder(a: Time, b: Time)
    requires Normal(a) && Normal(b)
    ensures CmpTimespec(a, b) == Sign(Total(a) - Total(b))
    ensures CmpTimespec(a, b) == -CmpTimespec(b, a)
    ensures CmpTimespec(a, b) == 0 <==> a == b
  {
  }

  lemma ModStep(x: int, y: int, k: int)
    requires x == y + k * M64
    ensures x % M64 == y % M64
  {
  }

  /** The difference is the true one modulo 2^64. */
  lemma DiffIsResidue(a: Time, b: Time)
    ensures DiffTimespec(a, b) == (Total(a) - Total(b)) % M64
  {
    var d := a.sec - b.sec;
    var d1 := d % M64;
    var p := d1 * NANO;
    var p1 := p % M64;
    var q := p1 + a.nsec;
    var q1 := q % M64;
    ModStep(Total(a) - Total(b), q1 - b.nsec, d / M64 * NANO + p / M64 + q / M64);
  }

  /** Read as signed, the difference is exact exactly when it fits; then its sign is the comparison. */
  lemma DiffIsExactWhenItFits(a: Time, b: Time)
    requires Normal(a) && Normal(b)
    ensures var d := Total(a) - Total(b);
      && (Signed(DiffTimespec(a, b)) == d <==> -M63 <= d < M63)
      && (-M63 <= d < M63 ==> Sign(Signed(DiffTimespec(a, b))) == CmpTimespec(a, b))
  {
    DiffIsResidue(a, b);
    CmpIsTotalOrder(a, b);
  }

  predicate SignsDisagree(a: Time, b: Time) {
    Normal(a) && Normal(b) && CmpTimespec(a, b) == 1 && Sign(Signed(DiffTimespec(a, b))) == -1
  }

  /** One step outside, the sign is wrong: 2^63 nanoseconds later reads as earlier. */
  lemma DiffWrapsAtTheEdge()
    ensures exists a, b :: Total(a) - Total(b) == M63 && SignsDisagree(a, b)
  {
    var a, b := Time(9223372036, 854775808), Time(0, 0);
    DiffIsResidue(a, b);
    assert Total(a) - Total(b) == M63;
  }
}
