/**
 The distributed-clock controller.

 `Updated` is one step of its state; the second half says, for every history of reference times, what
 that state is in terms of the samples alone.
 */
module ClockSync {
  import opened Common

  const MAX_I64: int := 0x7fff_ffff_ffff_ffff
  const STABLE: nat := 20
  const PATIENCE: nat := 500

  predicate InI64(x: int) { -MAX_I64 - 1 <= x <= MAX_I64 }

  function Abs(x: int): nat { if x < 0 then -x else x }

  /** Division towards zero. */
  function Quotient(a: int, b: int): int
    requires b > 0
  {
    if a >= 0 then a / b else -((-a) / b)
  }

  function Bump(n: nat): nat { if n != MAX_U32 then n + 1 else n }

  datatype Clock = Clock(
    integral: int, observations: nat, stable: nat, bad: nat, invalid: nat, previous: int, synced: bool)

  const RESET: Clock := Clock(0, 0, 0, 0, 0, 0, false)

  datatype Adjustment = Adjustment(valid: bool, synchronized: bool, fault: bool, phaseError: int, correction: int)

  // ---------------------------------------------------------------- one sample

  /** The advancement in cycles, to the nearest whole one. */
  function Rounded(advancement: int, cycle: int): int
    requires cycle > 0
  {
    if advancement <= 0 then 0
    else
      var cycles := advancement / cycle;
      if advancement % cycle >= cycle / 2 && cycles != MAX_I64 then cycles + 1 else cycles
  }

  /** The reference moved by one to four whole cycles, within tolerance. */
  predicate Advances(previous: int, reference: int, cycle: int)
    requires cycle > 0
  {
    var advancement := if reference > previous then reference - previous else 0;
    var cycles := Rounded(advancement, cycle);
    && 1 <= cycles <= 4 && cycles <= MAX_I64 / cycle
    && Abs(advancement - cycles * cycle) <= Max(1000, cycle / 5)
  }

  /** The distance from the nearest cycle boundary. */
  function Phase(reference: int, cycle: int): int
    requires cycle > 0 && reference > 0
  {
    var phase := reference % cycle;
    if phase > cycle / 2 then phase - cycle else phase
  }

  function IntegralLimit(cycle: int): int
    requires cycle > 0
  {
    if cycle > MAX_I64 / 100 then MAX_I64 else cycle * 100
  }

  function MaximumCorrection(cycle: int): int
    requires cycle > 0
  {
    Max(1, cycle / 10)
  }

  function Clamp(x: int, bound: int): int { if x < -bound then -bound else if x > bound then bound else x }

  function NextIntegral(integral: int, phase: int, advanced: bool, cycle: int): int
    requires cycle > 0
  {
    if advanced && phase > 0 then Min(integral + 1, IntegralLimit(cycle))
    else if advanced && phase < 0 then Max(integral - 1, -IntegralLimit(cycle))
    else integral
  }

  predicate InTolerance(phase: int, cycle: int) { Abs(phase) <= Max(1000, cycle / 20) }

  function Sampled(cycle: int, c: Clock, reference: int, advanced: bool): (Clock, Adjustment)
    requires cycle > 0 && reference > 0
  {
    var phase := Phase(reference, cycle);
    var invalid := if advanced then 0 else Bump(c.invalid);
    var integral := NextIntegral(c.integral, phase, advanced, cycle);
    var stable := if advanced && InTolerance(phase, cycle) then Bump(c.stable) else 0;
    var synced := stable >= STABLE || (c.synced && invalid < 3);
    var bad := if synced && Abs(phase) > cycle / 4 then Bump(c.bad) else 0;
    var observations := Bump(c.observations);
    var correction :=
      if advanced then Clamp(-Quotient(phase, 100) - Quotient(integral, 1000), MaximumCorrection(cycle)) else 0;
    (Clock(integral, observations, stable, bad, invalid, reference, synced),
     Adjustment(true, synced, invalid >= 3 || bad >= 10 || (!synced && observations >= PATIENCE), phase, correction))
  }

  function Updated(cycle: int, c: Clock, reference: int): (Clock, Adjustment) {
    if cycle <= 0 || reference <= 0 then
      var observations := Bump(c.observations);
      (c.(observations := observations), Adjustment(false, false, observations >= PATIENCE, 0, 0))
    else Sampled(cycle, c, reference, c.previous != 0 && Advances(c.previous, reference, cycle))
  }

  // ---------------------------------------------------------------- the code

  class DistributedClockController {
    const cycleNanoseconds: int
    var integral: int
    var observations: nat
    var stableCycles: nat
    var badCyclesAfterLock: nat
    var invalidAdvanceCycles: nat
    var previousReference: int
    var synchronized_: bool

    function View(): Clock
      reads this
    {
      Clock(integral, observations, stableCycles, badCyclesAfterLock, invalidAdvanceCycles, previousReference,
            synchronized_)
    }

    constructor (cycleNanoseconds: int)
      requires InI64(cycleNanoseconds)
      ensures View() == RESET && this.cycleNanoseconds == cycleNanoseconds
    {
      this.cycleNanoseconds := cycleNanoseconds;
      integral, observations, stableCycles, badCyclesAfterLock := 0, 0, 0, 0;
      invalidAdvanceCycles, previousReference, synchronized_ := 0, 0, false;
    }

    method Reset()
      modifies this
      ensures View() == RESET
    {
      integral, observations, stableCycles, badCyclesAfterLock := 0, 0, 0, 0;
      invalidAdvanceCycles, previousReference, synchronized_ := 0, 0, false;
    }

    /** Whether the reference advanced; every intermediate value fits 64 bits. */
    method ReferenceAdvanced(reference: int) returns (advanced: bool)
      requires 0 < cycleNanoseconds <= MAX_I64 && 0 < reference <= MAX_I64 && 0 <= previousReference <= MAX_I64
      ensures advanced == (previousReference != 0 && Advances(previousReference, reference, cycleNanoseconds))
    {
      if previousReference == 0 {
        return false;
      }
      var advancement := if reference > previousReference then reference - previousReference else 0;
      assert InI64(advancement);
      var rounded := Rounded(advancement, cycleNanoseconds);
      QuotientShrinks(advancement, cycleNanoseconds);
      assert InI64(rounded);
      var tolerance := Max(1000, cycleNanoseconds / 5);
      if rounded < 1 || rounded > 4 || rounded > MAX_I64 / cycleNanoseconds {
        return false;
      }
      GuardedProduct(rounded, cycleNanoseconds);
      assert InI64(rounded * cycleNanoseconds) && InI64(advancement - rounded * cycleNanoseconds);
      advanced := Abs(advancement - rounded * cycleNanoseconds) <= tolerance;
    }

    method PhaseOf(reference: int) returns (phase: int)
      requires 0 < cycleNanoseconds <= MAX_I64 && 0 < reference <= MAX_I64
      ensures phase == Phase(reference, cycleNanoseconds) && Abs(phase) <= MAX_I64
    {
      phase := reference % cycleNanoseconds;
      if phase > cycleNanoseconds / 2 {
        phase := phase - cycleNanoseconds;
      }
    }

    method Update(reference: int) returns (result: Adjustment)
      requires InI64(cycleNanoseconds) && InI64(reference) && 0 <= previousReference <= MAX_I64
      requires Abs(integral) < MAX_I64
      modifies this
      ensures (View(), result) == Updated(cycleNanoseconds, old(View()), reference)
      ensures 0 <= previousReference <= MAX_I64 && Abs(integral) <= old(Abs(integral)) + 1
    {
      hide Phase, Advances, NextIntegral, IntegralLimit, MaximumCorrection;
      if cycleNanoseconds <= 0 || reference <= 0 {
        observations := Bump(observations);
        return Adjustment(false, false, observations >= PATIENCE, 0, 0);
      }
      observations := Bump(observations);
      var advanced := ReferenceAdvanced(reference);
      previousReference := reference;
      if !advanced {
        stableCycles := 0;
        invalidAdvanceCycles := Bump(invalidAdvanceCycles);
        if invalidAdvanceCycles >= 3 {
          synchronized_ := false;
        }
      } else {
        invalidAdvanceCycles := 0;
      }
      var phase := PhaseOf(reference);
      assert InI64(integral + 1) && InI64(integral - 1);
      IntegralBound(integral, phase, advanced, cycleNanoseconds);
      assert InI64(-IntegralLimit(cycleNanoseconds));
      integral := NextIntegral(integral, phase, advanced, cycleNanoseconds);
      var correction := 0;
      if advanced {
        var wanted := -Quotient(phase, 100) - Quotient(integral, 1000);
        assert InI64(wanted);
        correction := Clamp(wanted, MaximumCorrection(cycleNanoseconds));
      }
      if advanced && InTolerance(phase, cycleNanoseconds) {
        stableCycles := Bump(stableCycles);
      } else {
        stableCycles := 0;
      }
      if stableCycles >= STABLE {
        synchronized_ := true;
      }
      if synchronized_ && Abs(phase) > cycleNanoseconds / 4 {
        badCyclesAfterLock := Bump(badCyclesAfterLock);
      } else {
        badCyclesAfterLock := 0;
      }
      var fault :=
        invalidAdvanceCycles >= 3 || badCyclesAfterLock >= 10 || (!synchronized_ && observations >= PATIENCE);
      result := Adjustment(true, synchronized_, fault, phase, correction);
    }
  }

  lemma QuotientShrinks(a: int, b: int)
    requires a >= 0 && b > 0
    ensures 0 <= a / b <= a
  {
    var q := a / b;
    assert a == q * b + a % b;
    assert q * b == q * (b - 1) + q;
    NonNegativeProduct(q, b - 1);
  }

  lemma NonNegativeProduct(x: int, y: int)
    requires x >= 0 && y >= 0
    ensures x * y >= 0
  {
  }

  lemma IntegralBound(integral: int, phase: int, advanced: bool, cycle: int)
    requires cycle > 0 && Abs(integral) < MAX_I64
    ensures Abs(NextIntegral(integral, phase, advanced, cycle)) <= Abs(integral) + 1
    ensures 0 < IntegralLimit(cycle) <= MAX_I64
  {
    if cycle <= MAX_I64 / 100 {
      assert cycle * 100 <= MAX_I64;
    }
  }

  lemma GuardedProduct(n: int, cycle: int)
    requires cycle > 0 && 0 <= n <= MAX_I64 / cycle
    ensures 0 <= n * cycle <= MAX_I64
  {
    var m := MAX_I64 / cycle;
    assert m * cycle <= MAX_I64;
    assert n * cycle <= m * cycle;
  }

  // ---------------------------------------------------------------- whole histories

  /** The samples that count: those with a positive reference. */
  function Positive(refs: seq<int>): (r: seq<int>)
    ensures |r| <= |refs| && forall i :: 0 <= i < |r| ==> r[i] > 0
  {
    if refs == [] then []
    else
      var rest := Positive(refs[..|refs| - 1]);
      if refs[|refs| - 1] > 0 then rest + [refs[|refs| - 1]] else rest
  }

  function After(cycle: int, refs: seq<int>): Clock {
    if refs == [] then RESET else Updated(cycle, After(cycle, refs[..|refs| - 1]), refs[|refs| - 1]).0
  }

  /** Sample `k` advanced past the one before it. */
  predicate Moved(cycle: int, ps: seq<int>, k: nat)
    requires cycle > 0 && k < |ps|
  {
    k > 0 && Advances(ps[k - 1], ps[k], cycle)
  }

  /** Sample `k` advanced and lies within tolerance of a cycle boundary. */
  predicate Steady(cycle: int, ps: seq<int>, k: nat)
    requires cycle > 0 && k < |ps| && ps[k] > 0
  {
    Moved(cycle, ps, k) && InTolerance(Phase(ps[k], cycle), cycle)
  }

  ghost predicate AllPositive(ps: seq<int>) {
    forall i :: 0 <= i < |ps| ==> ps[i] > 0
  }

  /** The last `n` of the first `k` samples all failed to advance. */
  ghost predicate Stuck(cycle: int, ps: seq<int>, k: nat, n: nat)
    requires cycle > 0 && k <= |ps|
  {
    n <= k && forall i :: k - n <= i < k ==> !Moved(cycle, ps, i)
  }

  /** The last `n` of the first `k` samples were all steady. */
  ghost predicate SteadyFor(cycle: int, ps: seq<int>, k: nat, n: nat)
    requires cycle > 0 && k <= |ps| && AllPositive(ps)
  {
    n <= k && forall i :: k - n <= i < k ==> Steady(cycle, ps, i)
  }

  /** Twenty steady samples in a row, and no three stuck ones in a row since. */
  ghost predicate Locked(cycle: int, ps: seq<int>, k: nat)
    requires cycle > 0 && k <= |ps| && AllPositive(ps)
  {
    exists j :: 0 <= j <= k && LockedAt(cycle, ps, j, k)
  }

  ghost predicate LockedAt(cycle: int, ps: seq<int>, j: nat, k: nat)
    requires cycle > 0 && j <= k <= |ps| && AllPositive(ps)
  {
    SteadyFor(cycle, ps, j, STABLE) && forall i :: j < i <= k ==> !Stuck(cycle, ps, i, 3)
  }

  /** Locked but more than a quarter of a cycle off. */
  ghost predicate Off(cycle: int, ps: seq<int>, k: nat)
    requires cycle > 0 && 0 < k <= |ps| && AllPositive(ps)
  {
    Locked(cycle, ps, k) && Abs(Phase(ps[k - 1], cycle)) > cycle / 4
  }

  /** The last `n` of the first `k` samples were all off. */
  ghost predicate OffFor(cycle: int, ps: seq<int>, k: nat, n: nat)
    requires cycle > 0 && k <= |ps| && AllPositive(ps)
  {
    n <= k && forall i :: k - n < i <= k ==> Off(cycle, ps, i)
  }

  /** `count` is the length of the current run of stuck samples, saturating; the next two alike. */
  ghost predicate StuckCount(cycle: int, ps: seq<int>, k: nat, count: nat)
    requires cycle > 0 && k <= |ps|
  {
    count <= MAX_U32 && forall n: nat :: n <= MAX_U32 ==> (Stuck(cycle, ps, k, n) <==> n <= count)
  }

  ghost predicate SteadyCount(cycle: int, ps: seq<int>, k: nat, count: nat)
    requires cycle > 0 && k <= |ps| && AllPositive(ps)
  {
    count <= MAX_U32 && forall n: nat :: n <= MAX_U32 ==> (SteadyFor(cycle, ps, k, n) <==> n <= count)
  }

  ghost predicate OffCount(cycle: int, ps: seq<int>, k: nat, count: nat)
    requires cycle > 0 && k <= |ps| && AllPositive(ps)
  {
    count <= MAX_U32 && forall n: nat :: n <= MAX_U32 ==> (OffFor(cycle, ps, k, n) <==> n <= count)
  }

  /** What the controller's fields mean after a history. */
  ghost predicate Means(cycle: int, ps: seq<int>, c: Clock)
    requires cycle > 0 && AllPositive(ps)
  {
    var k := |ps|;
    && c.previous == (if k == 0 then 0 else ps[k - 1])
    && StuckCount(cycle, ps, k, c.invalid) && SteadyCount(cycle, ps, k, c.stable)
    && (c.synced <==> Locked(cycle, ps, k)) && OffCount(cycle, ps, k, c.bad)
    && Abs(c.integral) <= Min(k, IntegralLimit(cycle))
  }

  lemma StuckStep(cycle: int, ps: seq<int>, x: int, n: nat)
    requires cycle > 0
    ensures
      var (qs, k) := (ps + [x], |ps|);
      Stuck(cycle, qs, k + 1, n) <==> n == 0 || (!Moved(cycle, qs, k) && Stuck(cycle, ps, k, n - 1))
  {
    hide Advances;
    var (qs, k) := (ps + [x], |ps|);
    assert forall i :: 0 <= i < k ==> Moved(cycle, qs, i) == Moved(cycle, ps, i);
  }

  lemma SteadyStep(cycle: int, ps: seq<int>, x: int, n: nat)
    requires cycle > 0 && AllPositive(ps) && x > 0
    ensures AllPositive(ps + [x])
    ensures
      var (qs, k) := (ps + [x], |ps|);
      SteadyFor(cycle, qs, k + 1, n) <==> n == 0 || (Steady(cycle, qs, k) && SteadyFor(cycle, ps, k, n - 1))
  {
    hide Advances, Phase;
    var (qs, k) := (ps + [x], |ps|);
    assert forall i :: 0 <= i < k ==> Steady(cycle, qs, i) == Steady(cycle, ps, i);
  }

  lemma SamePast(cycle: int, ps: seq<int>, x: int, k: nat)
    requires cycle > 0 && AllPositive(ps) && x > 0 && k <= |ps|
    ensures AllPositive(ps + [x])
    ensures forall n: nat :: Stuck(cycle, ps + [x], k, n) <==> Stuck(cycle, ps, k, n)
    ensures forall n: nat :: SteadyFor(cycle, ps + [x], k, n) <==> SteadyFor(cycle, ps, k, n)
  {
    hide Advances, Phase;
    var qs := ps + [x];
    assert forall i :: 0 <= i < |ps| ==> Moved(cycle, qs, i) == Moved(cycle, ps, i);
    assert forall i :: 0 <= i < |ps| ==> Steady(cycle, qs, i) == Steady(cycle, ps, i);
  }

  lemma SameLock(cycle: int, ps: seq<int>, x: int, k: nat)
    requires cycle > 0 && AllPositive(ps) && x > 0 && k <= |ps|
    ensures AllPositive(ps + [x]) && (Locked(cycle, ps + [x], k) <==> Locked(cycle, ps, k))
  {
    hide Stuck, SteadyFor;
    assert AllPositive(ps + [x]);
    forall j | 0 <= j <= k ensures LockedAt(cycle, ps + [x], j, k) <==> LockedAt(cycle, ps, j, k) {
      SamePast(cycle, ps, x, j);
      forall i | 0 <= i <= k ensures Stuck(cycle, ps + [x], i, 3) <==> Stuck(cycle, ps, i, 3) {
        SamePast(cycle, ps, x, i);
      }
    }
  }

  lemma LockedStep(cycle: int, ps: seq<int>, x: int)
    requires cycle > 0 && AllPositive(ps) && x > 0
    ensures AllPositive(ps + [x])
    ensures
      var (qs, k) := (ps + [x], |ps|);
      Locked(cycle, qs, k + 1) <==>
        SteadyFor(cycle, qs, k + 1, STABLE) || (Locked(cycle, ps, k) && !Stuck(cycle, qs, k + 1, 3))
  {
    hide Stuck, SteadyFor;
    var (qs, k) := (ps + [x], |ps|);
    SameLock(cycle, ps, x, k);
    if SteadyFor(cycle, qs, k + 1, STABLE) {
      assert LockedAt(cycle, qs, k + 1, k + 1);
    } else if Locked(cycle, qs, k + 1) {
      var j :| 0 <= j <= k + 1 && LockedAt(cycle, qs, j, k + 1);
      assert LockedAt(cycle, qs, j, k);
    }
    if Locked(cycle, ps, k) && !Stuck(cycle, qs, k + 1, 3) {
      var j :| 0 <= j <= k && LockedAt(cycle, qs, j, k);
      assert LockedAt(cycle, qs, j, k + 1);
    }
  }

  lemma OffStep(cycle: int, ps: seq<int>, x: int, n: nat)
    requires cycle > 0 && AllPositive(ps) && x > 0
    ensures AllPositive(ps + [x])
    ensures
      var (qs, k) := (ps + [x], |ps|);
      OffFor(cycle, qs, k + 1, n) <==> n == 0 || (Off(cycle, qs, k + 1) && OffFor(cycle, ps, k, n - 1))
  {
    hide Locked, Phase;
    var (qs, k) := (ps + [x], |ps|);
    forall i | 0 < i <= k ensures Off(cycle, qs, i) <==> Off(cycle, ps, i) {
      SameLock(cycle, ps, x, i);
    }
  }

  lemma CountsStep(cycle: int, ps: seq<int>, x: int, c: Clock)
    requires cycle > 0 && AllPositive(ps) && x > 0
    requires StuckCount(cycle, ps, |ps|, c.invalid) && SteadyCount(cycle, ps, |ps|, c.stable)
    ensures AllPositive(ps + [x])
    ensures
      var (qs, k) := (ps + [x], |ps|);
      && StuckCount(cycle, qs, k + 1, if Moved(cycle, qs, k) then 0 else Bump(c.invalid))
      && SteadyCount(cycle, qs, k + 1, if Steady(cycle, qs, k) then Bump(c.stable) else 0)
  {
    hide Stuck, SteadyFor, Moved, Steady;
    var (qs, k) := (ps + [x], |ps|);
    SteadyStep(cycle, ps, x, 0);
    var invalid := if Moved(cycle, qs, k) then 0 else Bump(c.invalid);
    forall n: nat | n <= MAX_U32 ensures Stuck(cycle, qs, |qs|, n) <==> n <= invalid {
      StuckStep(cycle, ps, x, n);
    }
    var stable := if Steady(cycle, qs, k) then Bump(c.stable) else 0;
    forall n: nat | n <= MAX_U32 ensures SteadyFor(cycle, qs, |qs|, n) <==> n <= stable {
      SteadyStep(cycle, ps, x, n);
    }
  }

  lemma OffCountStep(cycle: int, ps: seq<int>, x: int, count: nat)
    requires cycle > 0 && AllPositive(ps) && x > 0 && OffCount(cycle, ps, |ps|, count)
    ensures AllPositive(ps + [x])
    ensures OffCount(cycle, ps + [x], |ps| + 1, if Off(cycle, ps + [x], |ps| + 1) then Bump(count) else 0)
  {
    hide OffFor, Off;
    var (qs, k) := (ps + [x], |ps|);
    OffStep(cycle, ps, x, 0);
    var bad := if Off(cycle, qs, k + 1) then Bump(count) else 0;
    forall n: nat | n <= MAX_U32 ensures OffFor(cycle, qs, |qs|, n) <==> n <= bad {
      OffStep(cycle, ps, x, n);
    }
  }

  lemma SampleMeans(cycle: int, ps: seq<int>, x: int, c: Clock)
    requires cycle > 0 && AllPositive(ps) && x > 0 && Means(cycle, ps, c)
    ensures AllPositive(ps + [x]) && Means(cycle, ps + [x], Updated(cycle, c, x).0)
  {
    var (qs, k) := (ps + [x], |ps|);
    CountsStep(cycle, ps, x, c);
    LockedStep(cycle, ps, x);
    OffCountStep(cycle, ps, x, c.bad);
    hide Stuck, SteadyFor, OffFor, Locked, Advances, Phase, IntegralLimit;
    assert Moved(cycle, qs, k) == (c.previous != 0 && Advances(c.previous, x, cycle));
    assert Steady(cycle, qs, k) == (Moved(cycle, qs, k) && InTolerance(Phase(x, cycle), cycle));
    assert Off(cycle, qs, k + 1) == (Locked(cycle, qs, k + 1) && Abs(Phase(x, cycle)) > cycle / 4);
    LimitIsPositive(cycle);
  }

  lemma LimitIsPositive(cycle: int)
    requires cycle > 0
    ensures IntegralLimit(cycle) > 0
  {
  }

  /** The fields after any history, in terms of its samples. */
  lemma {:induction false} HistoryMeans(cycle: int, refs: seq<int>)
    requires cycle > 0
    ensures Means(cycle, Positive(refs), After(cycle, refs))
    ensures After(cycle, refs).observations == Min(|refs|, MAX_U32)
  {
    if refs == [] {
      NothingYet(cycle);
    } else {
      var (front, x) := (refs[..|refs| - 1], refs[|refs| - 1]);
      HistoryMeans(cycle, front);
      hide Means;
      if x > 0 {
        SampleMeans(cycle, Positive(front), x, After(cycle, front));
      } else {
        IgnoresObservations(cycle, Positive(front), After(cycle, front));
      }
    }
  }

  lemma NothingYet(cycle: int)
    requires cycle > 0
    ensures Means(cycle, [], RESET)
  {
    LimitIsPositive(cycle);
  }

  lemma IgnoresObservations(cycle: int, ps: seq<int>, c: Clock)
    requires cycle > 0 && AllPositive(ps) && Means(cycle, ps, c)
    ensures Means(cycle, ps, c.(observations := Bump(c.observations)))
  {
    hide StuckCount, SteadyCount, OffCount, Locked;
  }

  /**
   For every history: a sample is reported synchronized exactly when its reference is positive and,
   among the positive references, twenty steady samples in a row occurred with no three stuck ones in a
   row since.
   */
  lemma SynchronizedExactly(cycle: int, refs: seq<int>, reference: int)
    ensures
      var a := Updated(cycle, After(cycle, refs), reference).1;
      var ps := Positive(refs + [reference]);
      a.synchronized <==> cycle > 0 && reference > 0 && Locked(cycle, ps, |ps|)
  {
    if cycle > 0 {
      assert (refs + [reference])[..|refs|] == refs;
      HistoryMeans(cycle, refs + [reference]);
    }
  }

  /** The three fault rules: three stuck samples, ten off ones after lock, or five hundred updates without lock. */
  lemma FaultExactly(cycle: int, refs: seq<int>, reference: int)
    requires cycle > 0
    ensures
      var a := Updated(cycle, After(cycle, refs), reference).1;
      var ps := Positive(refs + [reference]);
      var k := |ps|;
      a.fault <==>
        if reference > 0
        then Stuck(cycle, ps, k, 3) || OffFor(cycle, ps, k, 10) || (!Locked(cycle, ps, k) && |refs| + 1 >= PATIENCE)
        else |refs| + 1 >= PATIENCE
  {
    assert (refs + [reference])[..|refs|] == refs;
    HistoryMeans(cycle, refs + [reference]);
    hide Stuck, OffFor, Locked, SteadyFor, Advances, Phase;
  }

  /**
   With a cycle of up to 2^63 / 100 nanoseconds no history can overflow the integral; with a longer one
   it would take 2^63 - 1 updates. The correction stays small.
   */
  lemma NoOverflow(cycle: int, refs: seq<int>, reference: int)
    requires 0 < cycle && (cycle <= MAX_I64 / 100 || |refs| < MAX_I64)
    ensures Abs(After(cycle, refs).integral) < MAX_I64
    ensures Abs(Updated(cycle, After(cycle, refs), reference).1.correction) <= MaximumCorrection(cycle)
  {
    HistoryMeans(cycle, refs);
    hide Means, Advances, Phase;
    IntegralIsSmall(cycle, Positive(refs), After(cycle, refs));
  }

  lemma IntegralIsSmall(cycle: int, ps: seq<int>, c: Clock)
    requires cycle > 0 && AllPositive(ps) && Means(cycle, ps, c)
    ensures Abs(c.integral) <= |ps| && (cycle <= MAX_I64 / 100 ==> Abs(c.integral) <= cycle * 100 < MAX_I64)
  {
  }
}
