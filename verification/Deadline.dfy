/** The cycle deadline: timespec arithmetic and realignment after an overrun. */
module Deadline {
  import opened Common
  import opened ClockSync

  const SECOND: int := 1_000_000_000

  datatype Timespec = Timespec(sec: int, nsec: int)
  {
    predicate Normalized() { 0 <= nsec < SECOND }

    /** The instant in nanoseconds. */
    function Nanos(): int { sec * SECOND + nsec }
  }

  /** Remainder with the sign of the dividend. */
  function Remainder(a: int, b: int): int
    requires b > 0
  {
    a - Quotient(a, b) * b
  }

  lemma RemainderBound(a: int, b: int)
    requires b > 0
    ensures -b < Remainder(a, b) < b && (a >= 0 ==> Remainder(a, b) >= 0)
  {
  }

  /** A negative duration that borrows from the seconds leaves the nanoseconds negative. */
  method AddToTimespec(value: Timespec, microseconds: int) returns (r: Timespec)
    requires value.Normalized()
    ensures r.Nanos() == value.Nanos() + 1000 * microseconds
    ensures r.Normalized() <==> value.nsec + 1000 * Remainder(microseconds, 1_000_000) >= 0
    ensures microseconds >= 0 ==> r.Normalized()
  {
    var left := Remainder(microseconds, 1_000_000);
    RemainderBound(microseconds, 1_000_000);
    r := Timespec(value.sec + Quotient(microseconds, 1_000_000), value.nsec + left * 1000);
    while r.nsec >= SECOND
      invariant (r.nsec >= 0 <==> value.nsec + 1000 * left >= 0) && r.Nanos() == value.Nanos() + 1000 * microseconds
      decreases r.nsec
    {
      r := Timespec(r.sec + 1, r.nsec - SECOND);
    }
  }

  method AddNanoseconds(value: Timespec, nanoseconds: int) returns (r: Timespec)
    requires value.Normalized()
    ensures r.Normalized() && r.Nanos() == value.Nanos() + nanoseconds
  {
    r := Timespec(value.sec + Quotient(nanoseconds, SECOND), value.nsec + Remainder(nanoseconds, SECOND));
    while r.nsec >= SECOND
      invariant r.Nanos() == value.Nanos() + nanoseconds
      decreases r.nsec
    {
      r := Timespec(r.sec + 1, r.nsec - SECOND);
    }
    while r.nsec < 0
      invariant r.nsec < SECOND && r.Nanos() == value.Nanos() + nanoseconds
      decreases -r.nsec
    {
      r := Timespec(r.sec - 1, r.nsec + SECOND);
    }
  }

  predicate Less(a: Timespec, b: Timespec) { a.sec < b.sec || (a.sec == b.sec && a.nsec < b.nsec) }

  lemma LessIsEarlier(a: Timespec, b: Timespec)
    requires a.Normalized() && b.Normalized()
    ensures Less(a, b) <==> a.Nanos() < b.Nanos()
  {
  }

  /** Whole microseconds from `earlier` to `later`, zero if negative, saturating at 32 bits. */
  method DifferenceMicros(later: Timespec, earlier: Timespec) returns (r: nat)
    requires later.Normalized() && earlier.Normalized()
    ensures
      var d := later.Nanos() - earlier.Nanos();
      r == if d < 0 then 0 else Min(d / 1000, MAX_U32)
  {
    var seconds, nanoseconds := later.sec - earlier.sec, later.nsec - earlier.nsec;
    if nanoseconds < 0 {
      seconds, nanoseconds := seconds - 1, nanoseconds + SECOND;
    }
    if seconds < 0 {
      return 0;
    }
    r := Min(seconds * 1_000_000 + Quotient(nanoseconds, 1000), MAX_U32);
  }

  // ---------------------------------------------------------------- realignment

  /** How many periods are skipped when the deadline lies `late` nanoseconds in the past. */
  function Missed(late: int, periodUs: nat): (n: nat)
    requires late > 0 && periodUs > 0
    ensures n >= 1
  {
    Min(late / 1000, MAX_U32) / periodUs + 1
  }

  /** Beyond this lateness the saturated difference no longer reaches the present. */
  function Reach(periodUs: nat): int
    requires periodUs > 0
  {
    1000 * ((MAX_U32 / periodUs + 1) * periodUs)
  }

  lemma DivideBetween(a: nat, p: nat)
    requires p > 0
    ensures a < (a / p + 1) * p <= a + p
  {
    assert a == (a / p) * p + a % p;
  }

  lemma QuotientMonotone(a: nat, b: nat, p: nat)
    requires a <= b && p > 0
    ensures (a / p + 1) * p <= (b / p + 1) * p
  {
    var d := b / p - a / p;
    assert b - a == d * p + (b % p - a % p);
    Scale(-d, p);
    Scale(d, p);
    assert (b / p + 1) * p == (a / p + 1) * p + d * p;
  }

  /** A whole multiple of a positive number is at least it, or at most zero. */
  lemma Scale(x: int, p: int)
    requires p > 0
    ensures (x >= 1 ==> x * p >= p) && (x <= 0 ==> x * p <= 0) && (x >= 0 ==> x * p >= 0)
  {
    if x >= 1 {
      assert x * p == p + (x - 1) * p;
      NonNegativeProduct(x - 1, p);
    } else {
      NonNegativeProduct(-x, p);
      assert (-x) * p == -(x * p);
    }
  }

  /**
   The realigned deadline lies after the present and at most one period ahead exactly when the lateness
   is within reach; in particular for every lateness of less than 2^32 microseconds.
   */
  lemma RealignedExactly(late: int, periodUs: nat)
    requires late > 0 && periodUs > 0
    ensures
      var ahead := 1000 * (Missed(late, periodUs) * periodUs) - late;
      && (0 < ahead <= 1000 * periodUs <==> late < Reach(periodUs))
      && (ahead <= 0 <==> late >= Reach(periodUs))
    ensures late < 1000 * (MAX_U32 + 1) ==> late < Reach(periodUs)
  {
    var whole := late / 1000;
    DivideBetween(MAX_U32, periodUs);
    if whole <= MAX_U32 {
      DivideBetween(whole, periodUs);
      QuotientMonotone(whole, MAX_U32, periodUs);
    }
  }

  /** A worker stopped for more than 2^32 microseconds of the monotonic clock: the new deadline is still in the past. */
  lemma LongStopStaysLate()
    ensures
      var late := 1000 * 2 * (MAX_U32 + 1);
      1000 * (Missed(late, 5000) * 5000) - late < 0
  {
  }

  /** The next deadline, as the end of a cycle computes it. */
  function NextNanos(next: int, after: int, periodUs: nat, correction: int): int
    requires periodUs > 0
  {
    var base := next + 1000 * periodUs + correction;
    if base >= after then base else base + 1000 * (Missed(after - base, periodUs) * periodUs)
  }

  method NextDeadline(next: Timespec, after: Timespec, periodUs: nat, correction: int)
    returns (r: Timespec, missed: nat)
    requires next.Normalized() && after.Normalized() && 0 < periodUs <= 1_000_000
    ensures r.Normalized() && r.Nanos() == NextNanos(next.Nanos(), after.Nanos(), periodUs, correction)
    ensures missed == 0 <==> next.Nanos() + 1000 * periodUs + correction >= after.Nanos()
  {
    missed := 0;
    r := AddNanoseconds(next, 1000 * periodUs + correction);
    LessIsEarlier(r, after);
    if Less(r, after) {
      var lateUs := DifferenceMicros(after, r);
      missed := lateUs / periodUs + 1;
      MissedFits(lateUs, periodUs);
      r := AddToTimespec(r, Min(missed, MAX_I64 / periodUs) * periodUs);
    }
  }

  lemma QuotientAtLeast(m: nat, p: nat, n: nat)
    requires p > 0 && n * p <= m
    ensures m / p >= n
  {
    var q := m / p;
    assert m == q * p + m % p;
    assert (n - q) * p == n * p - q * p;
    Scale(n - q, p);
  }

  /** The second guard of the source never bites. */
  lemma MissedFits(lateUs: nat, periodUs: nat)
    requires lateUs <= MAX_U32 && 0 < periodUs <= 1_000_000
    ensures lateUs / periodUs + 1 <= MAX_I64 / periodUs
  {
    QuotientShrinks(lateUs, periodUs);
    QuotientAtLeast(MAX_I64, periodUs, MAX_U32 + 1);
  }

  // ---------------------------------------------------------------- whole runs

  datatype Cycle = Cycle(after: int, correction: int)

  /** The correction is bounded as the clock controller bounds it. */
  predicate Corrected(c: Cycle, periodUs: nat)
    requires periodUs > 0
  {
    Abs(c.correction) <= MaximumCorrection(1000 * periodUs)
  }

  function DeadlineAfter(first: int, cycles: seq<Cycle>, periodUs: nat): int
    requires periodUs > 0
  {
    if cycles == [] then first
    else
      var c := cycles[|cycles| - 1];
      NextNanos(DeadlineAfter(first, cycles[..|cycles| - 1], periodUs), c.after, periodUs, c.correction)
  }

  function TotalCorrection(cycles: seq<Cycle>): int {
    if cycles == [] then 0 else TotalCorrection(cycles[..|cycles| - 1]) + cycles[|cycles| - 1].correction
  }

  /** One cycle moves the deadline by whole periods, at least one, and the correction. */
  lemma DeadlineStep(next: int, c: Cycle, periodUs: nat) returns (periods: nat)
    requires 5000 <= periodUs <= 1_000_000 && Corrected(c, periodUs)
    ensures periods >= 1
    ensures NextNanos(next, c.after, periodUs, c.correction) == next + 1000 * (periods * periodUs) + c.correction
    ensures NextNanos(next, c.after, periodUs, c.correction) >= next + 900 * periodUs
  {
    var base := next + 1000 * periodUs + c.correction;
    var skipped := if base >= c.after then 0 else Missed(c.after - base, periodUs);
    periods := 1 + skipped;
    assert periods * periodUs == periodUs + skipped * periodUs;
    NonNegativeProduct(skipped, periodUs);
  }

  /**
   Over any run: the deadline moves by a whole number of periods, at least one each cycle, plus the
   corrections; so without corrections it keeps its phase, and with them it still advances by at least
   nine tenths of a period each cycle.
   */
  lemma {:induction false} DeadlinesKeepPhase(first: int, cycles: seq<Cycle>, periodUs: nat) returns (periods: nat)
    requires 5000 <= periodUs <= 1_000_000 && forall i :: 0 <= i < |cycles| ==> Corrected(cycles[i], periodUs)
    ensures periods >= |cycles|
    ensures DeadlineAfter(first, cycles, periodUs) == first + 1000 * (periods * periodUs) + TotalCorrection(cycles)
    ensures DeadlineAfter(first, cycles, periodUs) >= first + 900 * (|cycles| * periodUs)
    decreases |cycles|
  {
    hide Corrected, NextNanos;
    if cycles == [] {
      periods := 0;
    } else {
      var (front, c) := (cycles[..|cycles| - 1], cycles[|cycles| - 1]);
      var before := DeadlinesKeepPhase(first, front, periodUs);
      var more := DeadlineStep(DeadlineAfter(first, front, periodUs), c, periodUs);
      periods := before + more;
      assert periods * periodUs == before * periodUs + more * periodUs;
      assert |cycles| * periodUs == |front| * periodUs + periodUs;
    }
  }
}
