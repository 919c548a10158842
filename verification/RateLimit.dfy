/** The controller's token bucket and the rate computed for it. Times are real seconds. */
module RateLimit {
  import opened Common

  function MinReal(a: real, b: real): real { if a <= b then a else b }

  datatype Bucket = Bucket(capacity: real, refill: real, tokens: real, updated: real)

  /** The level after refilling for a while. */
  function Refilled(b: Bucket, tokens: real, elapsed: real): real {
    MinReal(b.capacity, tokens + elapsed * b.refill)
  }

  function Consumed(b: Bucket, now: real): (Bucket, bool) {
    var tokens := Refilled(b, b.tokens, now - b.updated);
    if tokens < 1.0 then (b.(tokens := tokens, updated := now), false)
    else (b.(tokens := tokens - 1.0, updated := now), true)
  }

  class RateBucket {
    var capacity: real
    var refill: real
    var tokens: real
    var updated: real
    var closeAfterWrite: bool

    function View(): Bucket
      reads this
    {
      Bucket(capacity, refill, tokens, updated)
    }

    constructor (capacity: real, refill: real, now: real)
      ensures View() == Bucket(capacity, refill, capacity, now) && !closeAfterWrite
    {
      this.capacity, this.refill, tokens, updated, closeAfterWrite := capacity, refill, capacity, now, false;
    }

    method ConsumeRateToken(now: real) returns (ok: bool)
      modifies this
      ensures (View(), ok) == Consumed(old(View()), now)
      ensures closeAfterWrite == (old(closeAfterWrite) || !ok)
    {
      var elapsed := now - updated;
      updated := now;
      tokens := MinReal(capacity, tokens + elapsed * refill);
      if tokens < 1.0 {
        closeAfterWrite := true;
        return false;
      }
      tokens := tokens - 1.0;
      ok := true;
    }
  }

  // ---------------------------------------------------------------- which traffic is accepted

  ghost predicate Sorted(times: seq<real>) {
    forall i, j :: 0 <= i <= j < |times| ==> times[i] <= times[j]
  }

  /** The bucket after the frames at `times`, if none of them was rejected. */
  function AfterAll(b: Bucket, times: seq<real>): Option<Bucket> {
    if times == [] then Some(b)
    else
      match AfterAll(b, times[..|times| - 1])
      case None => None
      case Some(c) =>
        var (d, ok) := Consumed(c, times[|times| - 1]);
        if ok then Some(d) else None
  }

  /** Frames `i` to `j` are no more than the burst plus what the rate allows in the time they span. */
  ghost predicate Fits(capacity: real, refill: real, times: seq<real>, i: nat, j: nat)
    requires i <= j < |times|
  {
    (j - i + 1) as real <= capacity + (times[j] - times[i]) * refill
  }

  ghost predicate AllFit(capacity: real, refill: real, times: seq<real>) {
    forall i, j :: 0 <= i <= j < |times| ==> Fits(capacity, refill, times, i, j)
  }

  /** What window `i` leaves after the last frame. */
  ghost function Left(b: Bucket, times: seq<real>, i: nat): real
    requires i < |times|
  {
    var n := |times| - 1;
    b.capacity + (times[n] - times[i]) * b.refill - (n - i + 1) as real
  }

  /** The tokens left are the least that any window ending now leaves. */
  ghost predicate Tightest(b: Bucket, times: seq<real>, tokens: real) {
    && (forall i :: 0 <= i < |times| ==> tokens <= Left(b, times, i))
    && exists i :: 0 <= i < |times| && tokens == Left(b, times, i)
  }

  lemma LeftStep(b: Bucket, times: seq<real>, t: real, i: nat)
    requires i < |times|
    ensures Left(b, times + [t], i) == Left(b, times, i) + (t - times[|times| - 1]) * b.refill - 1.0
    ensures Left(b, times + [t], |times|) == b.capacity - 1.0
  {
    var (n, x, y, z) := (|times| - 1, times[|times| - 1], times[i], t);
    assert (times + [t])[i] == y && (times + [t])[n + 1] == t;
    assert (z - y) * b.refill == (x - y) * b.refill + (z - x) * b.refill;
    assert (n + 1 - i + 1) as real == (n - i + 1) as real + 1.0;
    assert (t - t) * b.refill == 0.0;
  }

  lemma TightestStep(b: Bucket, times: seq<real>, tokens: real, t: real)
    requires times != [] && Tightest(b, times, tokens)
    ensures Tightest(b, times + [t], Refilled(b, tokens, t - times[|times| - 1]) - 1.0)
  {
    hide Left;
    var gain := (t - times[|times| - 1]) * b.refill;
    var next := MinReal(b.capacity, tokens + gain) - 1.0;
    var all := times + [t];
    forall i | 0 <= i < |all| ensures next <= Left(b, all, i) {
      if i < |times| {
        LeftStep(b, times, t, i);
        assert tokens <= Left(b, times, i);
      } else {
        LeftStep(b, times, t, 0);
      }
    }
    var k :| 0 <= k < |times| && tokens == Left(b, times, k);
    LeftStep(b, times, t, k);
    var w := if b.capacity <= tokens + gain then |times| else k;
    assert next == Left(b, all, w);
  }

  /** The window from `i` to the last frame fits. */
  ghost predicate FitsToEnd(capacity: real, refill: real, times: seq<real>, i: nat)
    requires i < |times|
  {
    Fits(capacity, refill, times, i, |times| - 1)
  }

  ghost predicate EndFits(capacity: real, refill: real, times: seq<real>) {
    forall i :: 0 <= i < |times| ==> FitsToEnd(capacity, refill, times, i)
  }

  lemma FitsLeft(b: Bucket, times: seq<real>, i: nat)
    requires i < |times|
    ensures FitsToEnd(b.capacity, b.refill, times, i) <==> Left(b, times, i) >= 0.0
  {
  }

  lemma AllFitStep(capacity: real, refill: real, times: seq<real>, t: real)
    ensures AllFit(capacity, refill, times + [t]) <==>
      AllFit(capacity, refill, times) && EndFits(capacity, refill, times + [t])
  {
    var all := times + [t];
    forall i, j | 0 <= i <= j < |times|
      ensures Fits(capacity, refill, all, i, j) <==> Fits(capacity, refill, times, i, j)
    {
    }
    if AllFit(capacity, refill, all) {
      forall i, j | 0 <= i <= j < |times| ensures Fits(capacity, refill, times, i, j) {
        assert Fits(capacity, refill, all, i, j);
      }
    }
    if AllFit(capacity, refill, times) && EndFits(capacity, refill, all) {
      forall i, j | 0 <= i <= j < |all| ensures Fits(capacity, refill, all, i, j) {
        assert FitsToEnd(capacity, refill, all, i);
      }
    }
  }

  /** The last frame is accepted exactly when every window ending with it fits. */
  lemma LastFrame(b: Bucket, times: seq<real>, tokens: real)
    requires times != [] && Tightest(b, times, tokens)
    ensures tokens >= 0.0 <==> EndFits(b.capacity, b.refill, times)
  {
    hide Left, FitsToEnd;
    forall i | 0 <= i < |times| ensures FitsToEnd(b.capacity, b.refill, times, i) <==> Left(b, times, i) >= 0.0 {
      FitsLeft(b, times, i);
    }
    var k :| 0 <= k < |times| && tokens == Left(b, times, k);
    FitsLeft(b, times, k);
  }

  ghost predicate Full(b: Bucket) { b.tokens == b.capacity }

  lemma FirstFrame(b: Bucket, t: real)
    requires Full(b) && b.refill >= 0.0 && b.updated <= t
    ensures Refilled(b, b.tokens, t - b.updated) == b.capacity
    ensures Tightest(b, [t], b.capacity - 1.0)
  {
    NonNegative(t - b.updated, b.refill);
    assert Left(b, [t], 0) == b.capacity - 1.0 by {
      assert (t - t) * b.refill == 0.0;
    }
  }

  lemma NonNegative(x: real, y: real)
    requires x >= 0.0 && y >= 0.0
    ensures x * y >= 0.0
  {
  }

  /** The state of a bucket that has accepted all of `times`. */
  ghost predicate Tracks(b: Bucket, times: seq<real>, c: Bucket)
    requires times != []
  {
    c.capacity == b.capacity && c.refill == b.refill && c.updated == times[|times| - 1] && Tightest(b, times, c.tokens)
  }

  lemma NextFrame(b: Bucket, times: seq<real>, c: Bucket, t: real)
    requires times != [] && Tracks(b, times, c)
    ensures
      var (d, ok) := Consumed(c, t);
      (ok <==> EndFits(b.capacity, b.refill, times + [t])) && (ok ==> Tracks(b, times + [t], d))
  {
    hide Tightest, EndFits, Refilled;
    TightestStep(b, times, c.tokens, t);
    SameBucket(b, c, c.tokens, t - c.updated);
    LastFrame(b, times + [t], Refilled(b, c.tokens, t - c.updated) - 1.0);
  }

  lemma SameBucket(b: Bucket, c: Bucket, tokens: real, elapsed: real)
    requires c.capacity == b.capacity && c.refill == b.refill
    ensures Refilled(c, tokens, elapsed) == Refilled(b, tokens, elapsed)
  {
  }

  /** A full bucket accepts a trace of frames exactly when every window of it fits burst plus rate times elapsed. */
  lemma {:induction false} AcceptsExactly(b: Bucket, times: seq<real>)
    requires Full(b) && b.refill >= 0.0 && Sorted(times) && (times != [] ==> b.updated <= times[0])
    ensures AfterAll(b, times).Some? <==> AllFit(b.capacity, b.refill, times)
    ensures AfterAll(b, times).Some? && times != [] ==> Tracks(b, times, AfterAll(b, times).value)
    decreases |times|
  {
    if times != [] {
      var (front, t) := (times[..|times| - 1], times[|times| - 1]);
      assert times == front + [t];
      AcceptsExactly(b, front);
      AllFitStep(b.capacity, b.refill, front, t);
      hide AllFit, EndFits, Tightest, Refilled;
      if front == [] {
        FirstFrame(b, t);
        LastFrame(b, times, b.capacity - 1.0);
        assert AfterAll(b, front) == Some(b);
      } else if AfterAll(b, front).Some? {
        hide Consumed, Tracks;
        NextFrame(b, front, AfterAll(b, front).value, t);
      }
    }
  }

  // ---------------------------------------------------------------- the configured rate

  const MAXIMUM_RATE: nat := 200_000
  const MAXIMUM_BURST: nat := 10_000
  /** Eight buses of at most 199 SubDevices. */
  const MAXIMUM_TARGETS: nat := 8 * 199

  datatype Limit = Limit(burstFrames: nat, framesPerSecond: nat)

  function Clamped(x: nat, low: nat, high: nat): nat { if x < low then low else if x > high then high else x }

  function RefreshesPerSecond(timeoutMs: int): (n: nat)
    ensures n >= 1
  {
    var t := if timeoutMs > 0 then timeoutMs else 1;
    AtLeastOne(t);
    (1000 + t - 1) / t
  }

  lemma AtLeastOne(t: int)
    requires t > 0
    ensures (1000 + t - 1) / t >= 1
  {
  }

  function ControllerRateLimit(targets: nat, timeoutMs: int): Limit {
    var refreshes := RefreshesPerSecond(timeoutMs);
    var writes := if targets > MAXIMUM_RATE / refreshes then MAXIMUM_RATE else targets * refreshes;
    var rate := if writes > (MAXIMUM_RATE - 100) / 2 then MAXIMUM_RATE else writes * 2 + 100;
    var burst := if targets > (MAXIMUM_BURST - 64) / 3 then MAXIMUM_BURST else targets * 3 + 64;
    Limit(Clamped(burst, 500, MAXIMUM_BURST), Clamped(rate, 2000, MAXIMUM_RATE))
  }

  lemma RefreshBound(timeoutMs: int)
    requires timeoutMs >= 20
    ensures RefreshesPerSecond(timeoutMs) <= 50
  {
    var t := timeoutMs;
    var q := (1000 + t - 1) / t;
    assert 999 + t == q * t + (999 + t) % t;
    MultipleOf(q, t);
  }

  lemma MultipleOf(q: int, t: int)
    requires t > 0
    ensures q >= 51 ==> q * t >= 51 * t
  {
    if q >= 51 {
      assert q * t == 51 * t + (q - 51) * t;
      assert (q - 51) * t >= 0;
    }
  }

  /** Every valid configuration gets at least twice its refresh demand and three full refreshes of burst. */
  lemma RateCoversDemand(targets: nat, timeoutMs: int)
    requires targets <= MAXIMUM_TARGETS && timeoutMs >= 20
    ensures
      var l := ControllerRateLimit(targets, timeoutMs);
      && l.framesPerSecond >= 2 * (targets * RefreshesPerSecond(timeoutMs)) + 100
      && l.burstFrames >= 3 * targets + 64
  {
    var n := RefreshesPerSecond(timeoutMs);
    RefreshBound(timeoutMs);
    assert targets * n <= MAXIMUM_TARGETS * 50 by {
      assert targets * n <= targets * 50;
    }
  }

  lemma MoreFits(c: real, r: real, burst: real, rate: real, times: seq<real>)
    requires c <= burst && r <= rate && Sorted(times) && AllFit(c, r, times)
    ensures AllFit(burst, rate, times)
  {
    forall i, j | 0 <= i <= j < |times| ensures Fits(burst, rate, times, i, j) {
      assert Fits(c, r, times, i, j);
      var d := times[j] - times[i];
      NonNegative(d, rate - r);
      assert d * rate == d * r + d * (rate - r);
    }
  }

  /** A controller whose traffic stays within that demand is never cut off. */
  lemma DemandIsAccepted(targets: nat, timeoutMs: int, now: real, times: seq<real>)
    requires targets <= MAXIMUM_TARGETS && timeoutMs >= 20
    requires Sorted(times) && (times != [] ==> now <= times[0])
    requires AllFit((3 * targets + 64) as real, (2 * (targets * RefreshesPerSecond(timeoutMs)) + 100) as real, times)
    ensures
      var l := ControllerRateLimit(targets, timeoutMs);
      AfterAll(Bucket(l.burstFrames as real, l.framesPerSecond as real, l.burstFrames as real, now), times).Some?
  {
    RateCoversDemand(targets, timeoutMs);
    var l := ControllerRateLimit(targets, timeoutMs);
    hide ControllerRateLimit, RefreshesPerSecond, AfterAll;
    var (c, r) := ((3 * targets + 64) as real, (2 * (targets * RefreshesPerSecond(timeoutMs)) + 100) as real);
    var (burst, rate) := (l.burstFrames as real, l.framesPerSecond as real);
    MoreFits(c, r, burst, rate, times);
    AcceptsExactly(Bucket(burst, rate, burst, now), times);
  }
}
