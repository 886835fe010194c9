/**
 Sliding windows kept in a Redis sorted set: members are their own scores, old
 ones are pruned at each check and the key expires.  Shared by the rate
 limiter and the fraud velocity check.  Times are in nanoseconds.
 */
module Window {

  import opened Faults

  /** A check made at time `at`, which drops all up to `cutoff`; Redis's clock is its own. */
  datatype Check = Check(at: int, cutoff: int, redisTime: int)

  /** An empty set means that the key does not exist. */
  datatype Key = Key(members: set<int>, expireAt: int)

  const NO_KEY := Key({}, 0)

  function Live(key: Key, redisTime: int): set<int> {
    if redisTime >= key.expireAt then {} else key.members
  }

  /** ZREMRANGEBYSCORE key 0 cutoff */
  function Pruned(key: Key, c: Check): set<int> {
    set m | m in Live(key, c.redisTime) && !(0 <= m <= c.cutoff)
  }

  /** ZADD key at at, then EXPIRE key lifetime */
  function Added(key: Key, c: Check, lifetime: int): Key {
    Key(Pruned(key, c) + {c.at}, c.redisTime + lifetime)
  }

  // ---------------------------------------------------------------------------
  // The full history
  // ---------------------------------------------------------------------------

  function Stamps(hist: seq<Check>): set<int> {
    set i | 0 <= i < |hist| :: hist[i].at
  }

  function Recent(hist: seq<Check>, cutoff: int): set<int> {
    set t | t in Stamps(hist) && t > cutoff
  }

  function Within(hist: seq<Check>, x: int, length: int): set<int> {
    set t | t in Stamps(hist) && x < t <= x + length
  }

  lemma StampsSnoc(hist: seq<Check>, c: Check)
    ensures Stamps(hist + [c]) == Stamps(hist) + {c.at}
  {
    var all := hist + [c];
    forall t | t in Stamps(hist) + {c.at} ensures t in Stamps(all) {
      if t == c.at {
        assert all[|hist|].at == t;
      } else {
        var i :| 0 <= i < |hist| && hist[i].at == t;
        assert all[i].at == t;
      }
    }
  }

  lemma SubsetCard<T>(a: set<T>, b: set<T>)
    requires a <= b
    ensures |a| <= |b|
  {
    assert b == a + (b - a);
  }

  /** Later checks drop no less, and find an expired key only once its content is old anyway. */
  predicate Follows(earlier: Check, c: Check, lifetime: int) {
    && 0 <= earlier.at <= c.at
    && earlier.cutoff <= c.cutoff
    && (c.redisTime >= earlier.redisTime + lifetime ==> earlier.at <= c.cutoff)
  }

  predicate Orderly(checks: seq<Check>, lifetime: int) {
    && (forall i :: 0 <= i < |checks| ==> 0 <= checks[i].at)
    && (forall i, j :: 0 <= i < j < |checks| ==> Follows(checks[i], checks[j], lifetime))
  }

  predicate AllFollowedBy(hist: seq<Check>, c: Check, lifetime: int) {
    forall i :: 0 <= i < |hist| ==> Follows(hist[i], c, lifetime)
  }

  lemma OrderlyPrefix(checks: seq<Check>, lifetime: int)
    requires Orderly(checks, lifetime) && checks != []
    ensures var n := |checks| - 1;
            && Orderly(checks[..n], lifetime) && AllFollowedBy(checks[..n], checks[n], lifetime)
            && 0 <= checks[n].at && checks == checks[..n] + [checks[n]]
  {
  }

  /** The key holds all of the history but what is no newer than `floor`. */
  ghost predicate Covers(key: Key, hist: seq<Check>, floor: int, lifetime: int) {
    && key.members <= Stamps(hist)
    && (forall t :: t in Stamps(hist) && t !in key.members ==> t <= floor)
    && (forall t :: t in Stamps(hist) ==> 0 <= t <= hist[|hist| - 1].at)
    && (hist != [] ==> key.expireAt == hist[|hist| - 1].redisTime + lifetime)
  }

  lemma PrunedIsRecent(key: Key, hist: seq<Check>, floor: int, c: Check, lifetime: int)
    requires Covers(key, hist, floor, lifetime) && floor <= c.cutoff
    requires hist != [] ==> Follows(hist[|hist| - 1], c, lifetime)
    ensures Pruned(key, c) == Recent(hist, c.cutoff)
  {
  }

  lemma PruningCovers(key: Key, hist: seq<Check>, floor: int, c: Check, lifetime: int)
    requires Covers(key, hist, floor, lifetime) && floor <= c.cutoff
    requires hist != [] ==> Follows(hist[|hist| - 1], c, lifetime)
    ensures Covers(Key(Pruned(key, c), key.expireAt), hist, c.cutoff, lifetime)
  {
  }

  lemma AddingCovers(key: Key, hist: seq<Check>, floor: int, c: Check, lifetime: int)
    requires Covers(key, hist, floor, lifetime) && floor <= c.cutoff && 0 <= c.at
    requires hist != [] ==> Follows(hist[|hist| - 1], c, lifetime)
    ensures Covers(Added(key, c, lifetime), hist + [c], c.cutoff, lifetime)
  {
    PrunedIsRecent(key, hist, floor, c, lifetime);
    StampsSnoc(hist, c);
  }

  // ---------------------------------------------------------------------------
  // The bound on any window
  // ---------------------------------------------------------------------------

  /** A check that sees at most `max` approved stamps, its own included. */
  predicate FitsNext(approved: seq<Check>, c: Check, length: int, max: nat) {
    c.cutoff <= c.at - length && |Recent(approved, c.cutoff) + {c.at}| <= max
  }

  predicate Fits(approved: seq<Check>, length: int, max: nat) {
    approved != [] ==>
      var n := |approved| - 1;
      Fits(approved[..n], length, max) && FitsNext(approved[..n], approved[n], length, max)
  }

  predicate Ascending(checks: seq<Check>) {
    forall i, j :: 0 <= i < j < |checks| ==> checks[i].at <= checks[j].at
  }

  lemma WithinIsRecent(before: seq<Check>, c: Check, x: int, length: int)
    requires c.cutoff <= c.at - length && x < c.at <= x + length
    ensures Within(before + [c], x, length) <= Recent(before, c.cutoff) + {c.at}
  {
    StampsSnoc(before, c);
  }

  lemma WithinSkips(before: seq<Check>, c: Check, x: int, length: int)
    requires !(x < c.at <= x + length)
    ensures Within(before + [c], x, length) == Within(before, x, length)
  {
    StampsSnoc(before, c);
  }

  /** Then every interval (x, x + length] holds at most `max` approved stamps. */
  lemma {:induction false} WindowBound(approved: seq<Check>, length: int, max: nat, x: int)
    requires Fits(approved, length, max)
    ensures |Within(approved, x, length)| <= max
  {
    if approved == [] {
      NoneWithin(x, length);
    } else {
      var before, c := approved[..|approved| - 1], approved[|approved| - 1];
      assert approved == before + [c];
      if x < c.at <= x + length {
        WithinIsRecent(before, c, x, length);
        SubsetCard(Within(approved, x, length), Recent(before, c.cutoff) + {c.at});
      } else {
        WindowBound(before, length, max, x);
        WithinSkips(before, c, x, length);
      }
    }
  }

  lemma NoneWithin(x: int, length: int)
    ensures Within([], x, length) == {}
  {
  }

  /** The approved checks, not stamps, of an interval. */
  function ChecksWithin(approved: seq<Check>, x: int, length: int): seq<Check> {
    if approved == [] then [] else
      var rest := ChecksWithin(approved[..|approved| - 1], x, length);
      var c := approved[|approved| - 1];
      if x < c.at <= x + length then rest + [c] else rest
  }

  lemma WithinGrows(before: seq<Check>, c: Check, x: int, length: int)
    requires x < c.at <= x + length
    ensures Within(before + [c], x, length) == Within(before, x, length) + {c.at}
  {
    StampsSnoc(before, c);
  }

  predicate AllDistinct(checks: seq<Check>) {
    forall i, j :: 0 <= i < j < |checks| ==> checks[i].at != checks[j].at
  }

  /** With distinct stamps as many checks as stamps. */
  lemma {:induction false} DistinctStamps(approved: seq<Check>, x: int, length: int)
    requires AllDistinct(approved)
    ensures |ChecksWithin(approved, x, length)| == |Within(approved, x, length)|
  {
    if approved == [] {
      NoneWithin(x, length);
    } else {
      var n := |approved| - 1;
      var before, c := approved[..n], approved[n];
      assert approved == before + [c];
      assert c.at !in Stamps(before);
      DistinctStamps(before, x, length);
      if x < c.at <= x + length {
        WithinGrows(before, c, x, length);
        assert c.at !in Within(before, x, length);
        hide Within, Stamps;
      } else {
        WithinSkips(before, c, x, length);
        hide Within, Stamps;
      }
    }
  }

  // ---------------------------------------------------------------------------
  // Attempts whose command may fail
  // ---------------------------------------------------------------------------

  datatype Attempt = Attempt(check: Check, net: Net)

  /** The checks that Redis carries out. */
  function Effective(h: seq<Attempt>): seq<Check> {
    if h == [] then [] else
      var a := h[|h| - 1];
      if TakesEffect(a.net) then Effective(h[..|h| - 1]) + [a.check] else Effective(h[..|h| - 1])
  }

  /** The checks that end in an error, carried out or not. */
  function Failed(h: seq<Attempt>): seq<Check> {
    if h == [] then [] else
      var a := h[|h| - 1];
      if a.net.Fails? then Failed(h[..|h| - 1]) + [a.check] else Failed(h[..|h| - 1])
  }

  lemma UnionCard(a: set<int>, b: set<int>)
    ensures |a + b| <= |a| + |b|
  {
    SubsetCard(b - a, b);
    assert a + b == a + (b - a);
  }

  /** What passes either way is within the sum of both. */
  lemma WithinEither(passed: seq<Check>, a: seq<Check>, b: seq<Check>, x: int, length: int)
    requires Stamps(passed) <= Stamps(a) + Stamps(b)
    ensures |Within(passed, x, length)| <= |Within(a, x, length)| + |Within(b, x, length)|
  {
    SubsetCard(Within(passed, x, length), Within(a, x, length) + Within(b, x, length));
    UnionCard(Within(a, x, length), Within(b, x, length));
  }
}
