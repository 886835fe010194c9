/** The fraud service's checks: a maximum amount, then a per-account velocity window. */
module Velocity {

  import opened Window
  import opened Faults
  import opened Arithmetic

  const MINUTE := 60 * SECOND

  /** Amounts are in units of 1/10000: this is 10,000.00. */
  const MAX_AMOUNT := 100_000_000

  const MAX_COUNT: nat := 10

  const LIFETIME := 2 * MINUTE

  // What the pipeline does to the stored key: prune, add in any case, count.

  predicate Approves(key: Key, c: Check) {
    |Added(key, c, LIFETIME).members| <= MAX_COUNT
  }

  function KeyAfter(checks: seq<Check>): Key {
    if checks == [] then NO_KEY else Added(KeyAfter(checks[..|checks| - 1]), checks[|checks| - 1], LIFETIME)
  }

  /** The checks that the stored key approves. */
  function Approved(checks: seq<Check>): seq<Check> {
    if checks == [] then [] else
      var n := |checks| - 1;
      if Approves(KeyAfter(checks[..n]), checks[n]) then Approved(checks[..n]) + [checks[n]] else Approved(checks[..n])
  }

  /** The meaning, on the history of all checks, approved or not. */
  predicate HistoryApproves(hist: seq<Check>, c: Check) {
    |Recent(hist, c.cutoff) + {c.at}| <= MAX_COUNT
  }

  function Floor(checks: seq<Check>): int {
    if checks == [] then -1 else checks[|checks| - 1].cutoff
  }

  lemma {:induction false} KeyCovers(checks: seq<Check>)
    requires Orderly(checks, LIFETIME)
    ensures Covers(KeyAfter(checks), checks, Floor(checks), LIFETIME)
    ensures checks != [] ==>
              var n := |checks| - 1;
              Approves(KeyAfter(checks[..n]), checks[n]) <==> HistoryApproves(checks[..n], checks[n])
  {
    if checks != [] {
      var n := |checks| - 1;
      OrderlyPrefix(checks, LIFETIME);
      KeyCovers(checks[..n]);
      var floor := if n == 0 then checks[n].cutoff else Floor(checks[..n]);
      assert n > 0 ==> Follows(checks[..n][n - 1], checks[n], LIFETIME);
      CountIsRecent(KeyAfter(checks[..n]), checks[..n], floor, checks[n]);
    }
  }

  lemma CountIsRecent(key: Key, hist: seq<Check>, floor: int, c: Check)
    requires Covers(key, hist, floor, LIFETIME) && floor <= c.cutoff && 0 <= c.at
    requires hist != [] ==> Follows(hist[|hist| - 1], c, LIFETIME)
    ensures Added(key, c, LIFETIME).members == Recent(hist, c.cutoff) + {c.at}
    ensures Covers(Added(key, c, LIFETIME), hist + [c], c.cutoff, LIFETIME)
  {
    PrunedIsRecent(key, hist, floor, c, LIFETIME);
    AddingCovers(key, hist, floor, c, LIFETIME);
  }

  /** Refinement: the stored key decides exactly like the history of all attempts, rejected ones included. */
  lemma KeyCountsEveryAttempt(checks: seq<Check>, k: nat)
    requires Orderly(checks, LIFETIME) && k < |checks|
    ensures Approves(KeyAfter(checks[..k]), checks[k]) <==> HistoryApproves(checks[..k], checks[k])
  {
    assert checks[..k + 1][..k] == checks[..k];
    KeyCovers(checks[..k + 1]);
  }

  lemma {:induction false} ApprovedAreChecked(checks: seq<Check>)
    ensures Stamps(Approved(checks)) <= Stamps(checks)
  {
    if checks != [] {
      var n := |checks| - 1;
      ApprovedAreChecked(checks[..n]);
      StampsSnoc(Approved(checks[..n]), checks[n]);
      StampsSnoc(checks[..n], checks[n]);
      assert checks == checks[..n] + [checks[n]];
    }
  }

  /** The second clock reading comes at most `skew` after the first. */
  predicate Skewed(checks: seq<Check>, skew: int) {
    forall i :: 0 <= i < |checks| ==> checks[i].cutoff <= checks[i].at + skew - MINUTE
  }

  /** An approved check fits among the approved ones before it. */
  lemma ApprovalFits(before: seq<Check>, c: Check, skew: int)
    requires HistoryApproves(before, c) && c.cutoff <= c.at + skew - MINUTE
    ensures FitsNext(Approved(before), c, MINUTE - skew, MAX_COUNT)
  {
    ApprovedAreChecked(before);
    SubsetCard(Recent(Approved(before), c.cutoff) + {c.at}, Recent(before, c.cutoff) + {c.at});
  }

  lemma {:induction false} ApprovedFit(checks: seq<Check>, skew: int)
    requires Orderly(checks, LIFETIME) && Skewed(checks, skew)
    ensures Fits(Approved(checks), MINUTE - skew, MAX_COUNT)
  {
    if checks != [] {
      var n := |checks| - 1;
      var before, c := checks[..n], checks[n];
      OrderlyPrefix(checks, LIFETIME);
      ApprovedFit(before, skew);
      KeyCovers(checks);
      hide Orderly, Covers, Approves, HistoryApproves, KeyAfter, FitsNext;
      if Approves(KeyAfter(before), c) {
        ApprovalFits(before, c, skew);
        assert (Approved(before) + [c])[..|Approved(before)|] == Approved(before);
      }
    }
  }

  /**
   The stored key approves at most ten distinct stamps in any minute, less the time
   that passes between the two clock readings of a check.
   */
  lemma {:induction false} AtMostTenPerMinute(checks: seq<Check>, skew: int, x: int)
    requires Orderly(checks, LIFETIME) && Skewed(checks, skew)
    ensures |Within(Approved(checks), x, MINUTE - skew)| <= MAX_COUNT
  {
    hide *;
    ApprovedFit(checks, skew);
    WindowBound(Approved(checks), MINUTE - skew, MAX_COUNT, x);
  }

  /** The attempts that pass, by approval or because Redis fails. */
  function Passed(h: seq<Attempt>): seq<Check> {
    if h == [] then [] else
      var before, a := h[..|h| - 1], h[|h| - 1];
      if a.net.Fails? || Approves(KeyAfter(Effective(before)), a.check) then Passed(before) + [a.check] else Passed(before)
  }

  lemma {:induction false} PassedAreApprovedOrFailed(h: seq<Attempt>)
    ensures Stamps(Passed(h)) <= Stamps(Approved(Effective(h))) + Stamps(Failed(h))
  {
    if h != [] {
      var before, a := h[..|h| - 1], h[|h| - 1];
      PassedAreApprovedOrFailed(before);
      ApprovedSnoc(Effective(before), a.check);
      StampsSnoc(Passed(before), a.check);
      StampsSnoc(Failed(before), a.check);
      StampsSnoc(Approved(Effective(before)), a.check);
      hide Stamps, Approves, KeyAfter, Approved;
    }
  }

  lemma ApprovedSnoc(checks: seq<Check>, c: Check)
    ensures Approved(checks + [c]) == if Approves(KeyAfter(checks), c) then Approved(checks) + [c] else Approved(checks)
  {
    assert (checks + [c])[..|checks|] == checks;
  }

  /**
   What passes in any minute, less the skew of the two clock readings: at most ten
   distinct stamps, and those of the attempts that pass because Redis fails.
   */
  lemma {:induction false} AtMostTenAndFailuresPerMinute(h: seq<Attempt>, skew: int, x: int)
    requires Orderly(Effective(h), LIFETIME) && Skewed(Effective(h), skew)
    ensures |Within(Passed(h), x, MINUTE - skew)| <= MAX_COUNT + |Within(Failed(h), x, MINUTE - skew)|
  {
    AtMostTenPerMinute(Effective(h), skew, x);
    PassedAreApprovedOrFailed(h);
    WithinEither(Passed(h), Approved(Effective(h)), Failed(h), x, MINUTE - skew);
  }

  // ---------------------------------------------------------------------------
  // Rejected attempts count
  // ---------------------------------------------------------------------------

  /** One attempt every `period`, on one clock. */
  function Steady(start: int, period: int, n: nat): (r: seq<Check>)
    ensures |r| == n
  {
    seq(n, i => Check(start + i * period, start + i * period - MINUTE, start + i * period))
  }

  lemma ProductAscends(i: int, j: int, period: int)
    requires i < j && period > 0
    ensures i * period < j * period && (j - i) * period == j * period - i * period
  {
    assert (j - i) * period >= 1 * period by { MulAtLeast(j - i, period); }
  }

  lemma MulAtLeast(k: int, period: int)
    requires k >= 1 && period > 0
    ensures k * period >= period
  {
    assert k * period == (k - 1) * period + period;
  }

  lemma SteadyIsOrderly(start: int, period: int, n: nat)
    requires start >= 0 && period > 0
    ensures Orderly(Steady(start, period, n), LIFETIME)
  {
    var checks := Steady(start, period, n);
    forall i, j | 0 <= i < j < n ensures Follows(checks[i], checks[j], LIFETIME) {
      ProductAscends(i, j, period);
      if i > 0 { ProductAscends(0, i, period); }
    }
    forall i | 0 <= i < n ensures 0 <= checks[i].at {
      if i > 0 { ProductAscends(0, i, period); }
    }
  }

  function Range(start: int, period: int, lo: nat, hi: nat): set<int> {
    set i | lo <= i < hi :: start + i * period
  }

  lemma {:induction false} RangeCard(start: int, period: int, lo: nat, hi: nat)
    requires period > 0 && lo <= hi
    ensures |Range(start, period, lo, hi)| == hi - lo
    decreases hi
  {
    if lo == hi {
      assert Range(start, period, lo, hi) == {};
    } else {
      RangeCard(start, period, lo, hi - 1);
      var last := start + (hi - 1) * period;
      forall i | lo <= i < hi - 1 ensures start + i * period != last {
        ProductAscends(i, hi - 1, period);
      }
      assert Range(start, period, lo, hi) == Range(start, period, lo, hi - 1) + {last};
    }
  }

  lemma SteadyRange(start: int, period: int, n: nat)
    ensures Stamps(Steady(start, period, n)) == Range(start, period, 0, n)
  {
    var checks := Steady(start, period, n);
    forall t | t in Range(start, period, 0, n) ensures t in Stamps(checks) {
      var i :| 0 <= i < n && t == start + i * period;
      assert checks[i].at == t;
    }
    forall t | t in Stamps(checks) ensures t in Range(start, period, 0, n) {
      var i :| 0 <= i < |checks| && checks[i].at == t;
      assert t == start + i * period;
    }
  }

  lemma FewPeriods(d: nat, period: int)
    requires d <= 10 && period > 0 && 10 * period < MINUTE
    ensures d * period < MINUTE
  {
  }

  /** What attempt `k` sees of the steady attempts, itself included. */
  function Seen(start: int, period: int, k: nat): set<int> {
    Recent(Steady(start, period, k), start + k * period - MINUTE) + {start + k * period}
  }

  lemma SeesNoMore(start: int, period: int, k: nat)
    requires period > 0
    ensures |Seen(start, period, k)| <= k + 1
  {
    SteadyRange(start, period, k);
    RangeCard(start, period, 0, k + 1);
    SubsetCard(Seen(start, period, k), Range(start, period, 0, k + 1));
  }

  lemma SeesTheLastTen(start: int, period: int, k: nat)
    requires period > 0 && 10 * period < MINUTE && k >= 10
    ensures |Seen(start, period, k)| >= 11
  {
    SteadyRange(start, period, k);
    forall i | k - 10 <= i <= k ensures start + i * period in Seen(start, period, k) {
      if i < k {
        ProductAscends(i, k, period);
        FewPeriods(k - i, period);
      }
    }
    RangeCard(start, period, k - 10, k + 1);
    SubsetCard(Range(start, period, k - 10, k + 1), Seen(start, period, k));
  }

  lemma SteadyHistory(start: int, period: int, n: nat, k: nat)
    requires k < n
    ensures HistoryApproves(Steady(start, period, n)[..k], Steady(start, period, n)[k])
            <==> |Seen(start, period, k)| <= MAX_COUNT
  {
    assert Steady(start, period, n)[..k] == Steady(start, period, k);
  }

  /**
   Because rejected attempts count, an account that tries at a steady pace of
   more than ten attempts a minute gets its first ten approved and never
   another one, however long it goes on.
   */
  lemma SteadyAttemptsStarve(start: int, period: int, n: nat, k: nat)
    requires start >= 0 && period > 0 && 10 * period < MINUTE && k < n
    ensures Approves(KeyAfter(Steady(start, period, n)[..k]), Steady(start, period, n)[k]) <==> k < 10
  {
    SteadyIsOrderly(start, period, n);
    KeyCountsEveryAttempt(Steady(start, period, n), k);
    SteadyHistory(start, period, n, k);
    if k < 10 {
      SeesNoMore(start, period, k);
    } else {
      SeesTheLastTen(start, period, k);
    }
  }

  // ---------------------------------------------------------------------------
  // The service
  // ---------------------------------------------------------------------------

  /** The checks of one account; `hist` records all that its key has seen. */
  class FraudService {
    var key: Key
    ghost var hist: seq<Check>
    ghost var floor: int

    constructor ()
      ensures Valid() && hist == [] && floor == -MINUTE
    {
      key, hist, floor := NO_KEY, [], -MINUTE;
    }

    ghost predicate Valid()
      reads this
    {
      Covers(key, hist, floor, LIFETIME)
    }

    ghost predicate ComesNext(c: Check)
      reads this
    {
      && 0 <= c.at && floor <= c.cutoff
      && (hist != [] ==> Follows(hist[|hist| - 1], c, LIFETIME))
    }

    /** The Redis transaction: prune, add, count, set the expiry. */
    method CountAttempt(now: int, oneMinuteAgo: int, redisTime: int) returns (txCount: nat)
      requires Valid() && ComesNext(Check(now, oneMinuteAgo, redisTime))
      modifies this
      ensures Valid() && hist == old(hist) + [Check(now, oneMinuteAgo, redisTime)]
      ensures key == Added(old(key), Check(now, oneMinuteAgo, redisTime), LIFETIME)
      ensures txCount == |Recent(old(hist), oneMinuteAgo) + {now}|
    {
      var c := Check(now, oneMinuteAgo, redisTime);
      CountIsRecent(key, hist, floor, c);
      var members := Pruned(key, c) + {now};
      txCount := |members|;
      key := Key(members, redisTime + LIFETIME);
      hist := hist + [c];
      floor := oneMinuteAgo;
    }

    /** `now` and `later` are the two clock readings; Redis errors let the payment pass. */
    method CheckPayment(amount: int, now: int, later: int, redisTime: int, net: Net) returns (approved: bool)
      requires Valid() && ComesNext(Check(now, later - MINUTE, redisTime))
      modifies this
      ensures Valid()
      ensures var ago := later - 60_000_000_000;
              var stamps := (set i | 0 <= i < |old(hist)| && old(hist)[i].at > ago :: old(hist)[i].at) + {now};
              approved <==> amount <= 100_000_000 && (net == Works ==> |stamps| <= 10)
      ensures amount <= 100_000_000 && net != Fails(false) ==> key.expireAt == redisTime + 120_000_000_000
      ensures if amount > MAX_AMOUNT || !TakesEffect(net) then key == old(key) && hist == old(hist)
              else && key == Added(old(key), Check(now, later - MINUTE, redisTime), LIFETIME)
                   && hist == old(hist) + [Check(now, later - MINUTE, redisTime)]
    {
      if amount > MAX_AMOUNT {
        return false;
      }
      if !TakesEffect(net) {
        return true;
      }
      assert (set i | 0 <= i < |hist| && hist[i].at > later - MINUTE :: hist[i].at) == Recent(hist, later - MINUTE);
      var txCount := CountAttempt(now, later - MINUTE, redisTime);
      approved := net.Fails? || txCount <= MAX_COUNT;
    }
  }
}
