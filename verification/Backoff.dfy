/**
 Retries with exponential backoff and full jitter.  Durations are nanoseconds
 in a signed 64-bit integer that wraps around.
 */
module Backoff {
  import opened Arithmetic

  const MODULUS := 0x1_0000_0000_0000_0000
  const LIMIT := 0x8000_0000_0000_0000

  predicate Int64(x: int) { -LIMIT <= x < LIMIT }

  /** Two's complement wrap-around. */
  function Wrap(x: int): (r: int)
    ensures Int64(r) && (r - x) % MODULUS == 0
    ensures Int64(x) ==> r == x
  {
    var m := x % MODULUS;
    if m < LIMIT then m else m - MODULUS
  }

  function Pow2(k: nat): (r: nat)
    ensures r > 0
  {
    if k == 0 then 1 else 2 * Pow2(k - 1)
  }

  /** `1 << k` on 64 bits: bits pushed out are lost. */
  function ShiftedOne(k: nat): int {
    if k >= 64 then 0 else Wrap(Pow2(k))
  }

  /** The upper bound of the sleep after failed attempt number `attempt`. */
  function Cap(base: int, maxDelay: int, attempt: nat): int
    requires attempt >= 1
  {
    var delay := Wrap(base * ShiftedOne(attempt - 1));
    if delay > maxDelay then maxDelay else delay
  }

  // ---------------------------------------------------------------------------
  // Wrap-around
  // ---------------------------------------------------------------------------

  lemma ProductOfMultiple(a: int, x: int)
    requires x % MODULUS == 0
    ensures a * x % MODULUS == 0
  {
    var q := x / MODULUS;
    assert a * x == (a * q) * MODULUS by { assert x == q * MODULUS; }
    MultipleHasNoRest(a * q);
  }

  lemma MultipleHasNoRest(q: int)
    ensures q * MODULUS % MODULUS == 0
  {
  }

  /** Two numbers that differ by a multiple of the modulus wrap to the same value. */
  lemma SameWrap(x: int, y: int)
    requires (x - y) % MODULUS == 0
    ensures Wrap(x) == Wrap(y)
  {
  }

  lemma {:induction false} Pow2Sum(i: nat, j: nat)
    ensures Pow2(i + j) == Pow2(i) * Pow2(j)
  {
    if i > 0 {
      Pow2Sum(i - 1, j);
    }
  }

  lemma SmallPowers()
    ensures Pow2(5) == 32 && Pow2(16) == 0x1_0000 && Pow2(32) == 0x1_0000_0000
  {
    assert Pow2(8) == 256;
    Pow2Sum(8, 8);
    Pow2Sum(16, 16);
  }

  lemma {:induction false} Pow2Wraps(k: nat)
    requires k >= 64
    ensures Pow2(k) % MODULUS == 0
  {
    if k == 64 {
      SmallPowers();
      Pow2Sum(32, 32);
    } else {
      Pow2Wraps(k - 1);
      ProductOfMultiple(2, Pow2(k - 1));
    }
  }

  lemma Distributes(a: int, x: int, y: int)
    ensures a * x - a * y == a * (x - y)
  {
  }

  /** The two truncations, of the shift and of the product, amount to one. */
  lemma DelayWrapsOnce(base: int, k: nat)
    ensures Wrap(base * ShiftedOne(k)) == Wrap(base * Pow2(k))
  {
    if k >= 64 {
      Pow2Wraps(k);
      ProductOfMultiple(base, Pow2(k));
    } else {
      var exact := Pow2(k);
      var shifted := Wrap(exact);
      ProductOfMultiple(base, shifted - exact);
      Distributes(base, shifted, exact);
      SameWrap(base * shifted, base * exact);
    }
  }

  /**
   The cap is the documented min(maxDelay, base * 2^(attempt-1)) exactly when
   the product fits in 64 bits or happens to wrap to at least maxDelay.
   */
  lemma CapIsExponentialUnlessItWraps(base: int, maxDelay: int, attempt: nat)
    requires 0 <= base && Int64(maxDelay) && attempt >= 1
    ensures var exact := base * Pow2(attempt - 1);
            Cap(base, maxDelay, attempt) == (if exact > maxDelay then maxDelay else exact)
            <==> exact < LIMIT || Wrap(exact) >= maxDelay
  {
    DelayWrapsOnce(base, attempt - 1);
    assert base * Pow2(attempt - 1) >= 0;
  }

  lemma {:induction false} Pow2Grows(i: nat, j: nat)
    requires i <= j
    ensures Pow2(i) <= Pow2(j)
  {
    if i < j {
      Pow2Grows(i, j - 1);
    }
  }

  /** While nothing overflows the cap never decreases. */
  lemma CapsAscend(base: int, maxDelay: int, i: nat, j: nat)
    requires 0 <= base && Int64(maxDelay) && 1 <= i <= j && base * Pow2(j - 1) < LIMIT
    ensures Cap(base, maxDelay, i) <= Cap(base, maxDelay, j)
  {
    Pow2Grows(i - 1, j - 1);
    assert base * Pow2(i - 1) <= base * Pow2(j - 1);
    CapIsExponentialUnlessItWraps(base, maxDelay, i);
    CapIsExponentialUnlessItWraps(base, maxDelay, j);
  }

  /** From attempt 65 on every bit is pushed out, and the loop retries without pause. */
  lemma LateRetriesDoNotWait(base: int, maxDelay: int, attempt: nat)
    requires attempt >= 65
    ensures Cap(base, maxDelay, attempt) <= 0
  {
  }

  /** A base of 100 ms overflows at attempt 38: that retry does not wait either. */
  lemma OverflowSkipsTheWait(maxDelay: int)
    requires 100_000_000 <= maxDelay
    ensures Cap(100_000_000, maxDelay, 38) < 0 < Cap(100_000_000, maxDelay, 1)
  {
    SmallPowers();
    Pow2Sum(32, 5);
    assert Pow2(37) == 137438953472;
    DelayWrapsOnce(100_000_000, 37);
  }

  // ---------------------------------------------------------------------------
  // The loop
  // ---------------------------------------------------------------------------

  /** What the loop meets at each attempt; `draw` is what the random source yields. */
  datatype Moment = Moment(doneBefore: bool, succeeds: bool, doneWhileAsleep: bool, draw: nat)

  datatype Ending = Succeeded | Cancelled | Exhausted

  function Total(sleeps: seq<int>): int {
    if sleeps == [] then 0 else Total(sleeps[..|sleeps| - 1]) + sleeps[|sleeps| - 1]
  }

  /** The loop gets to attempt `k`: all before it failed, and nothing cancelled them. */
  predicate Gets(met: int -> Moment, k: int) {
    forall j :: 1 <= j < k ==> !met(j).doneBefore && !met(j).succeeds && !met(j).doneWhileAsleep
  }

  /** The sleep drawn below the cap; without a positive cap there is no sleep. */
  function Jittered(draw: nat, cap: int): int {
    if cap > 0 then draw % cap else 0
  }

  predicate Drawn(sleep: int, cap: int) {
    if cap > 0 then 0 <= sleep < cap else sleep == 0
  }

  predicate AllDrawn(sleeps: seq<int>, base: int, maxDelay: int) {
    forall i :: 0 <= i < |sleeps| ==> Drawn(sleeps[i], Cap(base, maxDelay, i + 1))
  }

  function NonNegative(x: int): nat { if x > 0 then x else 0 }

  lemma CapAtMostMax(base: int, maxDelay: int, attempt: nat)
    requires attempt >= 1
    ensures Cap(base, maxDelay, attempt) <= maxDelay
  {
  }

  lemma {:induction false} TotalBound(sleeps: seq<int>, m: nat)
    requires forall i :: 0 <= i < |sleeps| ==> 0 <= sleeps[i] <= m
    ensures 0 <= Total(sleeps) <= |sleeps| * m
  {
    if sleeps != [] {
      var n := |sleeps| - 1;
      TotalBound(sleeps[..n], m);
      assert (n + 1) * m == n * m + m;
    }
  }

  /** However the caps overflowed, each sleep is 0 or in [0, maxDelay), and their sum is bounded. */
  lemma SleepsAreBounded(sleeps: seq<int>, base: int, maxDelay: int, n: int)
    requires AllDrawn(sleeps, base, maxDelay) && |sleeps| <= NonNegative(n - 1)
    ensures forall i :: 0 <= i < |sleeps| ==> sleeps[i] == 0 || 0 <= sleeps[i] < maxDelay
    ensures 0 <= Total(sleeps) <= NonNegative(n - 1) * NonNegative(maxDelay)
  {
    forall i | 0 <= i < |sleeps|
      ensures (sleeps[i] == 0 || 0 <= sleeps[i] < maxDelay) && 0 <= sleeps[i] <= NonNegative(maxDelay)
    {
      CapAtMostMax(base, maxDelay, i + 1);
      assert Drawn(sleeps[i], Cap(base, maxDelay, i + 1));
    }
    TotalBound(sleeps, NonNegative(maxDelay));
    MulMonotone(|sleeps|, NonNegative(n - 1), NonNegative(maxDelay));
  }

  lemma JitteredIsDrawn(draw: nat, cap: int)
    ensures Drawn(Jittered(draw, cap), cap)
  {
  }

  /** Full jitter: the draw, reduced below the delay. */
  method Jitter(delay: int, draw: nat) returns (sleep: int)
    ensures sleep == Jittered(draw, delay)
  {
    sleep := 0;
    if delay > 0 {
      sleep := draw % delay;
    }
  }

  /**
   `sleeps` are the planned sleeps.  fn is called on attempts 1..calls, at most
   n of them.  nil is returned only right after a success, and exactly when
   some attempt is reached and succeeds; the attempts are exhausted exactly
   when all of them fail uncancelled (at once if n <= 0).
   */
  method RetryWithBackoffJitter(n: int, base: int, maxDelay: int, met: int -> Moment)
    returns (ending: Ending, calls: nat, sleeps: seq<int>)
    ensures calls <= NonNegative(n) && Gets(met, calls)
    ensures calls > 0 ==> !met(calls).doneBefore
    ensures ending.Succeeded? <==> exists k :: 1 <= k <= n && Gets(met, k) && !met(k).doneBefore && met(k).succeeds
    ensures ending.Succeeded? ==> calls > 0 && met(calls).succeeds
    ensures ending.Exhausted? <==> Gets(met, n) && (n > 0 ==> !met(n).doneBefore && !met(n).succeeds)
    ensures ending.Exhausted? ==> calls == NonNegative(n)
    ensures |sleeps| == (if ending.Cancelled? || n <= 0 then calls else calls - 1)
    ensures forall i :: 0 <= i < |sleeps| ==>
              var cap := Cap(base, maxDelay, i + 1);
              sleeps[i] == if cap > 0 then met(i + 1).draw % cap else 0
    ensures 0 <= Total(sleeps) <= NonNegative(n - 1) * NonNegative(maxDelay)
  {
    hide *;
    ending, calls, sleeps := AttemptUntil(n, base, maxDelay, met);
    assert |sleeps| <= NonNegative(n - 1) by { FewSleeps(n, calls, ending, |sleeps|); }
    JitteredMeans(sleeps, base, maxDelay, met);
    SleepsAreBounded(sleeps, base, maxDelay, n);
  }

  lemma FewSleeps(n: int, calls: nat, ending: Ending, count: nat)
    requires calls <= NonNegative(n) && count == (if ending.Cancelled? || n <= 0 then calls else calls - 1)
    requires ending.Cancelled? ==> calls <= NonNegative(n - 1)
    ensures count <= NonNegative(n - 1)
  {
  }

  /** The loop itself. */
  method AttemptUntil(n: int, base: int, maxDelay: int, met: int -> Moment)
    returns (ending: Ending, calls: nat, sleeps: seq<int>)
    ensures calls <= NonNegative(n) && Gets(met, calls)
    ensures ending.Cancelled? ==> calls <= NonNegative(n - 1)
    ensures calls > 0 ==> !met(calls).doneBefore
    ensures ending.Succeeded? <==> exists k :: 1 <= k <= n && Gets(met, k) && !met(k).doneBefore && met(k).succeeds
    ensures ending.Succeeded? ==> calls > 0 && met(calls).succeeds
    ensures ending.Exhausted? <==> Gets(met, n) && (n > 0 ==> !met(n).doneBefore && !met(n).succeeds)
    ensures ending.Exhausted? ==> calls == NonNegative(n)
    ensures |sleeps| == (if ending.Cancelled? || n <= 0 then calls else calls - 1)
    ensures AllJittered(sleeps, base, maxDelay, met)
  {
    ending, calls, sleeps := Exhausted, 0, [];
    hide Jittered, Cap;
    var attempt := 1;
    while attempt <= n
      invariant 1 <= attempt <= NonNegative(n) + 1 && calls == attempt - 1 == |sleeps|
      invariant n > 0 ==> attempt <= n
      invariant Gets(met, attempt) && AllJittered(sleeps, base, maxDelay, met) && ending == Exhausted
    {
      var m := met(attempt);
      if m.doneBefore {
        ending := Cancelled;
        break;
      }
      calls := calls + 1;
      if m.succeeds {
        ending := Succeeded;
        break;
      }
      if attempt == n {
        break;
      }
      var delay := Delay(base, maxDelay, attempt);
      var jitter := Jitter(delay, m.draw);
      sleeps := sleeps + [jitter];
      if m.doneWhileAsleep {
        ending := Cancelled;
        break;
      }
      attempt := attempt + 1;
    }
  }

  method Delay(base: int, maxDelay: int, attempt: nat) returns (delay: int)
    requires attempt >= 1
    ensures delay == Cap(base, maxDelay, attempt)
  {
    delay := Wrap(base * ShiftedOne(attempt - 1));
    if delay > maxDelay {
      delay := maxDelay;
    }
  }

  predicate AllJittered(sleeps: seq<int>, base: int, maxDelay: int, met: int -> Moment) {
    forall i :: 0 <= i < |sleeps| ==> sleeps[i] == Jittered(met(i + 1).draw, Cap(base, maxDelay, i + 1))
  }

  lemma JitteredMeans(sleeps: seq<int>, base: int, maxDelay: int, met: int -> Moment)
    requires AllJittered(sleeps, base, maxDelay, met)
    ensures AllDrawn(sleeps, base, maxDelay)
    ensures forall i :: 0 <= i < |sleeps| ==>
              var cap := Cap(base, maxDelay, i + 1);
              sleeps[i] == if cap > 0 then met(i + 1).draw % cap else 0
  {
    hide Cap;
    forall i | 0 <= i < |sleeps|
      ensures Drawn(sleeps[i], Cap(base, maxDelay, i + 1))
    {
      JitteredIsDrawn(met(i + 1).draw, Cap(base, maxDelay, i + 1));
    }
  }
}
