/** The gateway's sliding-window rate limiter. */
module RateLimiter {

  import opened Window
  import opened Faults
  import opened Arithmetic

  /** EXPIRE takes whole seconds, rounded up. */
  function Lifetime(window: int): (r: int)
    ensures window <= r < window + SECOND && r % SECOND == 0
  {
    (window + SECOND - 1) / SECOND * SECOND
  }

  function Ask(at: int, redisTime: int, window: int): Check {
    Check(at, at - window, redisTime)
  }

  /** All the checks of a limiter with this window. */
  predicate Asks(reqs: seq<Check>, window: int) {
    forall i :: 0 <= i < |reqs| ==> reqs[i].cutoff == reqs[i].at - window
  }

  // The script, on the stored key.

  predicate Allows(key: Key, c: Check, limit: int) {
    |Pruned(key, c)| < limit
  }

  function Script(key: Key, c: Check, limit: int, lifetime: int): Key {
    if Allows(key, c, limit) then Added(key, c, lifetime) else Key(Pruned(key, c), key.expireAt)
  }

  function KeyAfter(reqs: seq<Check>, limit: int, lifetime: int): Key {
    if reqs == [] then NO_KEY else Script(KeyAfter(reqs[..|reqs| - 1], limit, lifetime), reqs[|reqs| - 1], limit, lifetime)
  }

  /** The requests that the stored key lets through. */
  function Admitted(reqs: seq<Check>, limit: int, lifetime: int): seq<Check> {
    if reqs == [] then [] else
      var n := |reqs| - 1;
      var before := Admitted(reqs[..n], limit, lifetime);
      if Allows(KeyAfter(reqs[..n], limit, lifetime), reqs[n], limit) then before + [reqs[n]] else before
  }

  // The meaning: a limiter that forgets nothing.

  predicate HistoryAllows(hist: seq<Check>, c: Check, limit: int) {
    |Recent(hist, c.cutoff)| < limit
  }

  function Accept(hist: seq<Check>, c: Check, limit: int): seq<Check> {
    if HistoryAllows(hist, c, limit) then hist + [c] else hist
  }

  function Accepted(reqs: seq<Check>, limit: int): seq<Check> {
    if reqs == [] then [] else Accept(Accepted(reqs[..|reqs| - 1], limit), reqs[|reqs| - 1], limit)
  }

  lemma {:induction false} AcceptedFollow(reqs: seq<Check>, limit: int, c: Check, lifetime: int)
    requires AllFollowedBy(reqs, c, lifetime)
    ensures AllFollowedBy(Accepted(reqs, limit), c, lifetime)
  {
    if reqs != [] {
      AcceptedFollow(reqs[..|reqs| - 1], limit, c, lifetime);
    }
  }

  lemma {:induction false} AcceptedAreOrderly(reqs: seq<Check>, limit: int, window: int, lifetime: int)
    requires Orderly(reqs, lifetime) && Asks(reqs, window)
    ensures Orderly(Accepted(reqs, limit), lifetime) && Asks(Accepted(reqs, limit), window)
  {
    if reqs != [] {
      var n := |reqs| - 1;
      AcceptedAreOrderly(reqs[..n], limit, window, lifetime);
      AcceptedFollow(reqs[..n], limit, reqs[n], lifetime);
    }
  }

  function Floor(reqs: seq<Check>): int {
    if reqs == [] then -1 else reqs[|reqs| - 1].cutoff
  }

  lemma ScriptCovers(key: Key, hist: seq<Check>, floor: int, c: Check, limit: int, lifetime: int)
    requires Covers(key, hist, floor, lifetime) && floor <= c.cutoff && 0 <= c.at
    requires hist != [] ==> Follows(hist[|hist| - 1], c, lifetime)
    ensures Allows(key, c, limit) <==> HistoryAllows(hist, c, limit)
    ensures Covers(Script(key, c, limit, lifetime), Accept(hist, c, limit), c.cutoff, lifetime)
  {
    PrunedIsRecent(key, hist, floor, c, lifetime);
    PruningCovers(key, hist, floor, c, lifetime);
    AddingCovers(key, hist, floor, c, lifetime);
  }

  lemma {:induction false} KeyCovers(reqs: seq<Check>, limit: int, lifetime: int)
    requires Orderly(reqs, lifetime)
    ensures Covers(KeyAfter(reqs, limit, lifetime), Accepted(reqs, limit), Floor(reqs), lifetime)
    ensures reqs != [] ==>
              var n := |reqs| - 1;
              Allows(KeyAfter(reqs[..n], limit, lifetime), reqs[n], limit)
              <==> HistoryAllows(Accepted(reqs[..n], limit), reqs[n], limit)
  {
    if reqs != [] {
      var n := |reqs| - 1;
      var before, c := reqs[..n], reqs[n];
      KeyCovers(before, limit, lifetime);
      AcceptedFollow(before, limit, c, lifetime);
      var key, hist := KeyAfter(before, limit, lifetime), Accepted(before, limit);
      var floor := if n == 0 then c.cutoff else Floor(before);
      assert Covers(key, hist, floor, lifetime);
      assert floor <= c.cutoff by {
        if n > 0 {
          assert Follows(reqs[n - 1], reqs[n], lifetime);
        }
      }
      ScriptCovers(key, hist, floor, c, limit, lifetime);
    }
  }

  /**
   Refinement.  With non-decreasing timestamps, and a key that never expires
   before its newest stamp leaves the window, the pruned and expiring set
   decides every request exactly like the full history.
   */
  lemma KeyRefinesHistory(reqs: seq<Check>, limit: int, lifetime: int, k: nat)
    requires Orderly(reqs, lifetime) && k < |reqs|
    ensures Allows(KeyAfter(reqs[..k], limit, lifetime), reqs[k], limit)
            <==> HistoryAllows(Accepted(reqs[..k], limit), reqs[k], limit)
  {
    assert reqs[..k + 1][..k] == reqs[..k];
    KeyCovers(reqs[..k + 1], limit, lifetime);
  }

  lemma {:induction false} AdmittedIsAccepted(reqs: seq<Check>, limit: int, lifetime: int)
    requires Orderly(reqs, lifetime)
    ensures Admitted(reqs, limit, lifetime) == Accepted(reqs, limit)
  {
    if reqs != [] {
      AdmittedIsAccepted(reqs[..|reqs| - 1], limit, lifetime);
      KeyCovers(reqs, limit, lifetime);
    }
  }

  /** One clock for the gateway and Redis makes any non-decreasing run orderly. */
  lemma OneClockIsOrderly(reqs: seq<Check>, window: int)
    requires Asks(reqs, window) && Ascending(reqs)
    requires forall i :: 0 <= i < |reqs| ==> 0 <= reqs[i].at == reqs[i].redisTime
    ensures Orderly(reqs, Lifetime(window))
  {
  }

  lemma CardPlusOne(a: set<int>, x: int)
    ensures |a + {x}| <= |a| + 1
  {
    SubsetCard({x} - a, {x});
    assert a + {x} == a + ({x} - a);
  }

  lemma {:induction false} AcceptedFit(reqs: seq<Check>, limit: nat, window: int)
    requires Asks(reqs, window)
    ensures Fits(Accepted(reqs, limit), window, limit)
  {
    if reqs != [] {
      var n := |reqs| - 1;
      AcceptedFit(reqs[..n], limit, window);
      var hist, c := Accepted(reqs[..n], limit), reqs[n];
      if HistoryAllows(hist, c, limit) {
        assert (hist + [c])[..|hist|] == hist;
        CardPlusOne(Recent(hist, c.cutoff), c.at);
      }
    }
  }

  /** Any interval of one window length holds at most `limit` distinct admitted timestamps. */
  lemma {:induction false} AtMostLimitPerWindow(reqs: seq<Check>, limit: nat, window: int, lifetime: int, x: int)
    requires Orderly(reqs, lifetime) && Asks(reqs, window)
    ensures |Within(Admitted(reqs, limit, lifetime), x, window)| <= limit
  {
    AdmittedIsAccepted(reqs, limit, lifetime);
    AcceptedFit(reqs, limit, window);
    WindowBound(Accepted(reqs, limit), window, limit, x);
  }

  /** With distinct timestamps: at most `limit` requests. */
  lemma {:induction false} AtMostLimitRequestsPerWindow(reqs: seq<Check>, limit: nat, window: int, lifetime: int, x: int)
    requires Orderly(reqs, lifetime) && Asks(reqs, window)
    requires AllDistinct(Admitted(reqs, limit, lifetime))
    ensures |ChecksWithin(Admitted(reqs, limit, lifetime), x, window)| <= limit
  {
    AtMostLimitPerWindow(reqs, limit, window, lifetime, x);
    DistinctStamps(Admitted(reqs, limit, lifetime), x, window);
  }

  // ---------------------------------------------------------------------------
  // What is served when Redis may fail
  // ---------------------------------------------------------------------------

  /** The requests that are served, admitted by the key or because Redis fails. */
  function Served(h: seq<Attempt>, limit: int, lifetime: int): seq<Check> {
    if h == [] then [] else
      var before, a := h[..|h| - 1], h[|h| - 1];
      if a.net.Fails? || Allows(KeyAfter(Effective(before), limit, lifetime), a.check, limit)
      then Served(before, limit, lifetime) + [a.check]
      else Served(before, limit, lifetime)
  }

  lemma AdmittedSnoc(reqs: seq<Check>, c: Check, limit: int, lifetime: int)
    ensures Admitted(reqs + [c], limit, lifetime) ==
            if Allows(KeyAfter(reqs, limit, lifetime), c, limit) then Admitted(reqs, limit, lifetime) + [c]
            else Admitted(reqs, limit, lifetime)
  {
    assert (reqs + [c])[..|reqs|] == reqs;
  }

  lemma {:induction false} ServedAreAdmittedOrFailed(h: seq<Attempt>, limit: int, lifetime: int)
    ensures Stamps(Served(h, limit, lifetime)) <= Stamps(Admitted(Effective(h), limit, lifetime)) + Stamps(Failed(h))
  {
    if h != [] {
      var before, a := h[..|h| - 1], h[|h| - 1];
      ServedAreAdmittedOrFailed(before, limit, lifetime);
      AdmittedSnoc(Effective(before), a.check, limit, lifetime);
      StampsSnoc(Served(before, limit, lifetime), a.check);
      StampsSnoc(Failed(before), a.check);
      StampsSnoc(Admitted(Effective(before), limit, lifetime), a.check);
      hide Stamps, Allows, KeyAfter, Admitted;
    }
  }

  lemma ChecksWithinSnoc(checks: seq<Check>, c: Check, x: int, length: int)
    ensures ChecksWithin(checks + [c], x, length) ==
            if x < c.at <= x + length then ChecksWithin(checks, x, length) + [c] else ChecksWithin(checks, x, length)
  {
    assert (checks + [c])[..|checks|] == checks;
  }

  lemma {:induction false} ServedCount(h: seq<Attempt>, limit: int, lifetime: int, x: int, length: int)
    ensures |ChecksWithin(Served(h, limit, lifetime), x, length)| <=
            |ChecksWithin(Admitted(Effective(h), limit, lifetime), x, length)| + |ChecksWithin(Failed(h), x, length)|
  {
    if h != [] {
      var before, a := h[..|h| - 1], h[|h| - 1];
      ServedCount(before, limit, lifetime, x, length);
      AdmittedSnoc(Effective(before), a.check, limit, lifetime);
      ChecksWithinSnoc(Served(before, limit, lifetime), a.check, x, length);
      ChecksWithinSnoc(Failed(before), a.check, x, length);
      ChecksWithinSnoc(Admitted(Effective(before), limit, lifetime), a.check, x, length);
      hide ChecksWithin, Allows, KeyAfter, Admitted;
    }
  }

  /** What bounds the admitted requests of an interval bounds the served ones, but for failures. */
  lemma {:induction false} ServedBound(h: seq<Attempt>, limit: nat, lifetime: int, x: int, length: int)
    requires |Within(Admitted(Effective(h), limit, lifetime), x, length)| <= limit
    ensures |Within(Served(h, limit, lifetime), x, length)| <= limit + |Within(Failed(h), x, length)|
  {
    ServedAreAdmittedOrFailed(h, limit, lifetime);
    hide *;
    WithinEither(Served(h, limit, lifetime), Admitted(Effective(h), limit, lifetime), Failed(h), x, length);
  }

  /**
   Any interval of one window length holds at most `limit` distinct timestamps of
   served requests, and those of requests served because Redis fails.
   */
  lemma {:induction false} AtMostLimitAndFailuresPerWindow(h: seq<Attempt>, limit: nat, window: int, lifetime: int, x: int)
    requires Orderly(Effective(h), lifetime) && Asks(Effective(h), window)
    ensures |Within(Served(h, limit, lifetime), x, window)| <= limit + |Within(Failed(h), x, window)|
  {
    AtMostLimitPerWindow(Effective(h), limit, window, lifetime, x);
    hide *;
    ServedBound(h, limit, lifetime, x, window);
  }

  /** If admitted timestamps are distinct: at most `limit` requests, and the requests served because Redis fails. */
  lemma {:induction false} AtMostLimitAndFailedRequestsPerWindow(h: seq<Attempt>, limit: nat, window: int, lifetime: int, x: int)
    requires Orderly(Effective(h), lifetime) && Asks(Effective(h), window)
    requires AllDistinct(Admitted(Effective(h), limit, lifetime))
    ensures |ChecksWithin(Served(h, limit, lifetime), x, window)| <= limit + |ChecksWithin(Failed(h), x, window)|
  {
    AtMostLimitRequestsPerWindow(Effective(h), limit, window, lifetime, x);
    ServedCount(h, limit, lifetime, x, window);
  }

  // ---------------------------------------------------------------------------
  // Requests that reach Redis in another order than that of their timestamps
  // ---------------------------------------------------------------------------

  /** Redis carries requests out one after the other, each at most `lag` after its timestamp. */
  predicate Lagging(reqs: seq<Check>, lag: int) {
    && (forall i :: 0 <= i < |reqs| ==> 0 <= reqs[i].at <= reqs[i].redisTime <= reqs[i].at + lag)
    && (forall i, j :: 0 <= i < j < |reqs| ==> reqs[i].redisTime <= reqs[j].redisTime)
  }

  lemma LaggingPrefix(reqs: seq<Check>, lag: int)
    requires Lagging(reqs, lag) && reqs != []
    ensures var n := |reqs| - 1;
            && Lagging(reqs[..n], lag) && 0 <= reqs[n].at <= reqs[n].redisTime <= reqs[n].at + lag
            && (n > 0 ==> reqs[..n][n - 1].redisTime <= reqs[n].redisTime)
  {
  }

  /** At Redis's time `now` the key holds every admitted stamp of the last window, and does not expire before they leave it. */
  ghost predicate Holds(key: Key, admitted: seq<Check>, now: int, window: int) {
    forall t :: t in Stamps(admitted) ==> t <= now && t + window <= key.expireAt && (t in key.members || t <= now - window)
  }

  function Time(reqs: seq<Check>): int {
    if reqs == [] then 0 else reqs[|reqs| - 1].redisTime
  }

  /** What is newer than a window before Redis's time survives the pruning. */
  lemma PrunedKeepsRecent(key: Key, admitted: seq<Check>, now: int, c: Check, window: int)
    requires Holds(key, admitted, now, window) && now <= c.redisTime
    requires c.cutoff == c.at - window && c.at <= c.redisTime
    ensures Recent(admitted, c.redisTime - window) <= Pruned(key, c)
    ensures forall t :: t in Stamps(admitted) ==> t in Pruned(key, c) || t <= c.redisTime - window
  {
  }

  lemma ScriptHolds(key: Key, admitted: seq<Check>, now: int, c: Check, window: int, limit: int)
    requires Holds(key, admitted, now, window) && now <= c.redisTime
    requires c.cutoff == c.at - window && c.at <= c.redisTime
    ensures Holds(Script(key, c, limit, Lifetime(window)),
                  if Allows(key, c, limit) then admitted + [c] else admitted, c.redisTime, window)
  {
    PrunedKeepsRecent(key, admitted, now, c, window);
    hide Pruned, Recent;
    if Allows(key, c, limit) {
      StampsSnoc(admitted, c);
      hide Stamps;
    }
  }

  lemma {:induction false} KeyHolds(reqs: seq<Check>, limit: int, window: int, lag: int)
    requires Lagging(reqs, lag) && Asks(reqs, window)
    ensures Holds(KeyAfter(reqs, limit, Lifetime(window)), Admitted(reqs, limit, Lifetime(window)), Time(reqs), window)
  {
    if reqs != [] {
      var n := |reqs| - 1;
      LaggingPrefix(reqs, lag);
      KeyHolds(reqs[..n], limit, window, lag);
      hide Lagging, Holds, Script, Allows, Lifetime;
      ScriptHolds(KeyAfter(reqs[..n], limit, Lifetime(window)), Admitted(reqs[..n], limit, Lifetime(window)),
                  if n == 0 then reqs[n].redisTime else Time(reqs[..n]), reqs[n], window, limit);
    }
  }

  /** The same stamps, as if pruned by Redis's clock. */
  function ByRedisTime(checks: seq<Check>, window: int): (r: seq<Check>)
    ensures |r| == |checks| && Stamps(r) == Stamps(checks)
  {
    if checks == [] then [] else
      var before, c := checks[..|checks| - 1], checks[|checks| - 1];
      var d := c.(cutoff := c.redisTime - window);
      StampsSnoc(before, c);
      StampsSnoc(ByRedisTime(before, window), d);
      assert checks == before + [c];
      ByRedisTime(before, window) + [d]
  }

  lemma {:induction false} AdmittedFitByRedisTime(reqs: seq<Check>, limit: nat, window: int, lag: int)
    requires Lagging(reqs, lag) && Asks(reqs, window)
    ensures Fits(ByRedisTime(Admitted(reqs, limit, Lifetime(window)), window), window - lag, limit)
  {
    if reqs != [] {
      var n := |reqs| - 1;
      var key, admitted, c := KeyAfter(reqs[..n], limit, Lifetime(window)), Admitted(reqs[..n], limit, Lifetime(window)), reqs[n];
      LaggingPrefix(reqs, lag);
      AdmittedFitByRedisTime(reqs[..n], limit, window, lag);
      if Allows(key, c, limit) {
        KeyHolds(reqs[..n], limit, window, lag);
        assert c.cutoff == c.at - window;
        hide Lagging, Asks, KeyAfter, Admitted, Lifetime;
        FitsByRedisTime(key, admitted, if n == 0 then c.redisTime else Time(reqs[..n]), c, limit, window, lag);
      }
    }
  }

  /** An admitted request finds room among what Redis's clock still counts. */
  lemma AdmittedFindsRoom(key: Key, admitted: seq<Check>, now: int, c: Check, limit: nat, window: int)
    requires Holds(key, admitted, now, window) && now <= c.redisTime && Allows(key, c, limit)
    requires c.cutoff == c.at - window && c.at <= c.redisTime
    ensures |Recent(admitted, c.redisTime - window) + {c.at}| <= limit
  {
    PrunedKeepsRecent(key, admitted, now, c, window);
    hide Pruned, Recent, Holds;
    SubsetCard(Recent(admitted, c.redisTime - window), Pruned(key, c));
    CardPlusOne(Recent(admitted, c.redisTime - window), c.at);
  }

  lemma {:induction false} FitsByRedisTime(key: Key, admitted: seq<Check>, now: int, c: Check, limit: nat, window: int,
                                           lag: int)
    requires Holds(key, admitted, now, window) && now <= c.redisTime && Allows(key, c, limit)
    requires c.cutoff == c.at - window && c.at <= c.redisTime <= c.at + lag
    requires Fits(ByRedisTime(admitted, window), window - lag, limit)
    ensures Fits(ByRedisTime(admitted + [c], window), window - lag, limit)
  {
    AdmittedFindsRoom(key, admitted, now, c, limit, window);
    hide Holds, Allows;
    var before, d := ByRedisTime(admitted, window), c.(cutoff := c.redisTime - window);
    assert Recent(before, d.cutoff) == Recent(admitted, c.redisTime - window);
    assert FitsNext(before, d, window - lag, limit);
    assert (admitted + [c])[..|admitted|] == admitted;
    assert ByRedisTime(admitted + [c], window) == before + [d];
    hide FitsNext, ByRedisTime, Recent, Stamps;
    assert (before + [d])[..|before|] == before;
  }

  /**
   Without any order of timestamps: if requests reach Redis within `lag` of their
   timestamps, any interval of a window length less `lag` holds at most `limit`
   distinct timestamps of served requests, and those served because Redis fails.
   */
  lemma {:induction false} AtMostLimitDespiteReordering(h: seq<Attempt>, limit: nat, window: int, lag: int, x: int)
    requires Lagging(Effective(h), lag) && Asks(Effective(h), window)
    ensures |Within(Served(h, limit, Lifetime(window)), x, window - lag)| <= limit + |Within(Failed(h), x, window - lag)|
  {
    AdmittedBound(Effective(h), limit, window, lag, x);
    hide *;
    ServedBound(h, limit, Lifetime(window), x, window - lag);
  }

  lemma {:induction false} AdmittedBound(reqs: seq<Check>, limit: nat, window: int, lag: int, x: int)
    requires Lagging(reqs, lag) && Asks(reqs, window)
    ensures |Within(Admitted(reqs, limit, Lifetime(window)), x, window - lag)| <= limit
  {
    hide Admitted, KeyAfter, Fits, Stamps, Lifetime, Lagging, Asks;
    var admitted := Admitted(reqs, limit, Lifetime(window));
    AdmittedFitByRedisTime(reqs, limit, window, lag);
    BoundOfSame(ByRedisTime(admitted, window), admitted, limit, x, window - lag);
  }

  lemma BoundOfSame(same: seq<Check>, admitted: seq<Check>, limit: nat, x: int, length: int)
    requires Fits(same, length, limit) && Stamps(same) == Stamps(admitted)
    ensures |Within(admitted, x, length)| <= limit
  {
    WindowBound(same, length, limit, x);
    SameStamps(same, admitted, x, length);
  }

  lemma SameStamps(a: seq<Check>, b: seq<Check>, x: int, length: int)
    requires Stamps(a) == Stamps(b)
    ensures Within(a, x, length) == Within(b, x, length)
  {
  }

  // ---------------------------------------------------------------------------
  // Rejections and bursts
  // ---------------------------------------------------------------------------

  lemma {:induction false} AcceptedAgain(reqs: seq<Check>, limit: int)
    ensures Accepted(Accepted(reqs, limit), limit) == Accepted(reqs, limit)
  {
    if reqs != [] {
      var n := |reqs| - 1;
      AcceptedAgain(reqs[..n], limit);
      var hist := Accepted(reqs[..n], limit);
      if HistoryAllows(hist, reqs[n], limit) {
        assert (hist + [reqs[n]])[..|hist|] == hist;
      }
    }
  }

  /** Rejections use no slot: without them the stored key answers any next request the same. */
  lemma RejectionsUseNoSlot(reqs: seq<Check>, limit: int, window: int, lifetime: int, c: Check)
    requires Orderly(reqs + [c], lifetime) && Asks(reqs + [c], window)
    ensures Allows(KeyAfter(Accepted(reqs, limit), limit, lifetime), c, limit)
            <==> Allows(KeyAfter(reqs, limit, lifetime), c, limit)
  {
    var all := reqs + [c];
    assert all[..|reqs|] == reqs;
    KeyRefinesHistory(all, limit, lifetime, |reqs|);
    forall i, j | 0 <= i < j < |reqs| ensures Follows(reqs[i], reqs[j], lifetime) {
      assert Follows(all[i], all[j], lifetime);
    }
    forall i | 0 <= i < |reqs| ensures Follows(reqs[i], c, lifetime) && reqs[i].cutoff == reqs[i].at - window {
      assert Follows(all[i], all[|reqs|], lifetime);
    }
    AcceptedAreOrderly(reqs, limit, window, lifetime);
    AcceptedFollow(reqs, limit, c, lifetime);
    AcceptedAgain(reqs, limit);
    var few := Accepted(reqs, limit) + [c];
    assert few[..|few| - 1] == Accepted(reqs, limit);
    assert Orderly(few, lifetime);
    KeyRefinesHistory(few, limit, lifetime, |few| - 1);
  }

  lemma {:induction false} SameInstantAccepted(c: Check, window: int, limit: nat, n: nat)
    requires window > 0 && c.cutoff == c.at - window
    ensures var burst := seq(n, _ => c);
            && (|Accepted(burst, limit)| == n <==> limit >= 2 || n <= limit)
            && Stamps(Accepted(burst, limit)) == if n == 0 || limit == 0 then {} else {c.at}
    decreases n
  {
    var burst := seq(n, _ => c);
    if n > 0 {
      var fewer := seq(n - 1, _ => c);
      assert burst[..n - 1] == fewer;
      SameInstantAccepted(c, window, limit, n - 1);
      var hist := Accepted(fewer, limit);
      NoMoreThanAsked(fewer, limit);
      assert Recent(hist, c.cutoff) == Stamps(hist);
      StampsSnoc(hist, c);
    }
  }

  /**
   Requests with the same timestamp share one member, so a burst within one
   nanosecond is let through whole exactly if it is no longer than the limit or
   the limit is at least two.
   */
  lemma SameInstantBurst(c: Check, window: int, limit: nat, lifetime: int, n: nat)
    requires window > 0 && lifetime > 0 && 0 <= c.at && c.cutoff == c.at - window
    ensures var burst := seq(n, _ => c);
            && (|Admitted(burst, limit, lifetime)| == n <==> limit >= 2 || n <= limit)
            && Stamps(Admitted(burst, limit, lifetime)) == if n == 0 || limit == 0 then {} else {c.at}
  {
    AdmittedIsAccepted(seq(n, _ => c), limit, lifetime);
    SameInstantAccepted(c, window, limit, n);
  }

  lemma {:induction false} NoMoreThanAsked(reqs: seq<Check>, limit: int)
    ensures |Accepted(reqs, limit)| <= |reqs|
  {
    if reqs != [] {
      NoMoreThanAsked(reqs[..|reqs| - 1], limit);
    }
  }

  // ---------------------------------------------------------------------------
  // The middleware
  // ---------------------------------------------------------------------------

  /** The limiter of one client; `hist` records the full history of what its key accepted. */
  class Limiter {
    var key: Key
    ghost var hist: seq<Check>
    ghost var floor: int
    const window: int
    const limit: int

    constructor (window: int, limit: int)
      ensures Valid() && this.window == window && this.limit == limit && hist == [] && floor == -window
    {
      key, hist, floor := NO_KEY, [], -window;
      this.window, this.limit := window, limit;
    }

    ghost predicate Valid()
      reads this
    {
      Covers(key, hist, floor, Lifetime(window))
    }

    /** A request that comes no earlier than those before it. */
    ghost predicate ComesNext(at: int, redisTime: int)
      reads this
    {
      && 0 <= at && floor <= at - window
      && (hist != [] ==> Follows(hist[|hist| - 1], Ask(at, redisTime, window), Lifetime(window)))
    }

    /** The Lua script, on the stored key. */
    method RunScript(c: Check, lifetime: int) returns (allowed: bool)
      modifies this`key
      ensures key == Script(old(key), c, limit, lifetime)
      ensures allowed <==> Allows(old(key), c, limit)
    {
      var members := Pruned(key, c);
      allowed := |members| < limit;
      if allowed {
        key := Key(members + {c.at}, c.redisTime + lifetime);
      } else {
        key := Key(members, key.expireAt);
      }
    }

    /** The script decides and counts like the full history. */
    method Eval(at: int, redisTime: int) returns (allowed: bool)
      requires Valid() && ComesNext(at, redisTime)
      modifies this
      ensures Valid() && floor == at - window
      ensures key == Script(old(key), Ask(at, redisTime, window), limit, Lifetime(window))
      ensures allowed <==> |Recent(old(hist), at - window)| < limit
      ensures allowed <==> |set i | 0 <= i < |old(hist)| && old(hist)[i].at > at - window :: old(hist)[i].at| < limit
      ensures hist == if allowed then old(hist) + [Ask(at, redisTime, window)] else old(hist)
    {
      var c := Ask(at, redisTime, window);
      ScriptCovers(key, hist, floor, c, limit, Lifetime(window));
      assert (set i | 0 <= i < |hist| && hist[i].at > at - window :: hist[i].at) == Recent(hist, at - window);
      allowed := RunScript(c, Lifetime(window));
      hist := Accept(hist, c, limit);
      floor := c.cutoff;
    }

    /** Fails open: an error lets the request through, whether or not it took a slot. */
    method RateLimit(at: int, redisTime: int, net: Net) returns (served: bool)
      requires Valid() && ComesNext(at, redisTime)
      modifies this
      ensures Valid()
      ensures served <==> !net.Works? || |Recent(old(hist), at - window)| < limit
      ensures hist == if TakesEffect(net) && |Recent(old(hist), at - window)| < limit
                      then old(hist) + [Ask(at, redisTime, window)] else old(hist)
    {
      served := true;
      if TakesEffect(net) {
        var allowed := Eval(at, redisTime);
        if net.Works? {
          served := allowed;
        }
      }
    }
  }
}
