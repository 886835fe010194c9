/**
 How far the Redis tier of idempotency keeps duplicate payments away from the
 unique index on its own.
 */
module RedisTier {
  import opened Accounts
  import opened Payments
  import opened PaymentRows

  /** No call got past the Redis tier on this key, unused as yet, without holding its reservation throughout. */
  predicate Clean(flags: Flags, k: Key) {
    k !in flags.failedSetNX && k !in flags.failedGet && k !in flags.missedGet && k !in flags.expired
  }

  /** A call past the Redis tier holds the reservation of its key; before COMMIT the key is then unused. */
  predicate Claim(index: map<Key, PayId>, redis: map<Key, Record>, c: nat, call: Call) {
    var k := call.terms.key;
    && (call.pc.AtInsert? || Inserting(call) ==> Reserves(redis, k, c) && k !in index)
    && (call.pc.AtDbCheck? || call.pc.AtRelease? ==> Reserves(redis, k, c) || k in index)
    && (call.pc.AtComplete? ==> k in index)
  }

  /** All calls for key `k` hold what they need. */
  ghost predicate Claims(index: map<Key, PayId>, redis: map<Key, Record>, calls: seq<Call>, k: Key) {
    forall c :: 0 <= c < |calls| && calls[c].terms.key == k ==> Claim(index, redis, c, calls[c])
  }

  /** A step of call `c` keeps its own claim, and never runs into the unique index. */
  lemma NextKeepsOwnClaim(f: Front, c: nat, id: PayId, now: int, blocked: bool)
    requires Claim(f.db.index, f.redis, c, f.call) && CallOk(f.db.terms, f.call)
    requires f.db.index.Values <= f.db.terms.Keys && f.db.terms.Keys == f.db.status.Keys
    requires Clean(NextOfCall(f, c, id, now, blocked).flags, f.call.terms.key)
    ensures var g := NextOfCall(f, c, id, now, blocked);
            Claim(g.db.index, g.redis, c, g.call) && g.flags.violated == f.flags.violated
  {
    match f.call.pc
    case Fresh =>
    case AtSetNX =>
    case AtGet =>
    case AtDbCheck =>
    case AtInsert =>
    case AtOutbox(_) =>
    case AtCommit(_, _) =>
    case AtComplete(_) =>
    case AtRelease(_) =>
    case Done(_) =>
  }

  /** Nor does it disturb other calls, for the same key or another. */
  lemma NextKeepsOtherClaims(f: Front, c: nat, id: PayId, now: int, blocked: bool, d: nat, other: Call)
    requires f.call.terms.key == other.terms.key ==> Claim(f.db.index, f.redis, c, f.call)
    requires Claim(f.db.index, f.redis, d, other) && c != d && CallOk(f.db.terms, f.call)
    ensures var g := NextOfCall(f, c, id, now, blocked); Claim(g.db.index, g.redis, d, other)
  {
    match f.call.pc
    case Fresh =>
    case AtSetNX =>
    case AtGet =>
    case AtDbCheck =>
    case AtInsert =>
    case AtOutbox(_) =>
    case AtCommit(_, _) =>
    case AtComplete(_) =>
    case AtRelease(_) =>
    case Done(_) =>
  }

  lemma RedisFaultKeepsClaims(f: Front, c: nat, applied: bool, d: nat, other: Call)
    requires c != d ==> Claim(f.db.index, f.redis, d, other)
    requires CallOk(f.db.terms, f.call)
    requires f.call.terms.key == other.terms.key ==>
               Claim(f.db.index, f.redis, c, f.call) && Clean(RedisFaultOfCall(f, c, applied).flags, other.terms.key)
    requires c == d ==> other == f.call
    ensures var g := RedisFaultOfCall(f, c, applied);
            && g.flags.violated == f.flags.violated
            && Claim(g.db.index, g.redis, d, if c == d then g.call else other)
  {
  }

  lemma DbFaultKeepsClaims(f: Front, c: nat, applied: bool, d: nat, other: Call)
    requires c != d ==> Claim(f.db.index, f.redis, d, other)
    requires CallOk(f.db.terms, f.call)
    requires f.call.terms.key == other.terms.key ==> Claim(f.db.index, f.redis, c, f.call)
    requires c == d ==> other == f.call
    ensures var g := DbFaultOfCall(f, applied);
            g.flags == f.flags && Claim(g.db.index, g.redis, d, if c == d then g.call else other)
  {
  }

  ghost predicate Tier(s: State, k: Key) {
    Clean(s.flags, k) ==> Claims(s.db.index, s.redis, s.calls, k) && k !in s.flags.violated
  }

  /** Flags are only ever raised, and only on the key of the call that steps. */
  lemma FlagsOfCall(s: State, a: Action, k: Key)
    requires OfCall(a) && a.c < |s.calls|
    ensures var g := CallAction(s, a);
            && (Clean(g.flags, k) ==> Clean(s.flags, k))
            && (k in g.flags.violated ==> k in s.flags.violated || k == s.calls[a.c].terms.key)
            && g.call.terms.key == s.calls[a.c].terms.key
  {
    match s.calls[a.c].pc
    case Fresh =>
    case AtSetNX =>
    case AtGet =>
    case AtDbCheck =>
    case AtInsert =>
    case AtOutbox(_) =>
    case AtCommit(_, _) =>
    case AtComplete(_) =>
    case AtRelease(_) =>
    case Done(_) =>
  }

  /**
   When a call raises a flag on a key: by a SET NX that fails, a GET that fails, or a
   GET that finds no record, leaving the key unused and the record not its own; and
   by an INSERT that executes while the key is taken.
   */
  lemma FlagsAreDeserved(s: State, a: Action, k: Key)
    requires OfCall(a) && a.c < |s.calls|
    ensures var call, g := s.calls[a.c], CallAction(s, a);
            var bare := call.terms.key == k && k !in s.db.index
                        && !(k in g.redis && g.redis[k].InFlight? && g.redis[k].owner == a.c);
            && (k in g.flags.failedSetNX <==> k in s.flags.failedSetNX || (a.CallRedisFault? && call.pc == AtSetNX && bare))
            && (k in g.flags.failedGet <==> k in s.flags.failedGet || (a.CallRedisFault? && call.pc == AtGet && bare))
            && (k in g.flags.missedGet <==> k in s.flags.missedGet || (a.CallStep? && call.pc == AtGet && k !in s.redis && bare))
            && (k in g.flags.violated <==>
                (k in s.flags.violated
                 || (a.CallStep? && call.pc == AtInsert && call.terms.key == k && k in s.db.index && !InsertBlocked(s, a.c, a.id))))
            && g.flags.expired == s.flags.expired
  {
    match s.calls[a.c].pc
    case Fresh =>
    case AtSetNX =>
    case AtGet =>
    case AtDbCheck =>
    case AtInsert =>
    case AtOutbox(_) =>
    case AtCommit(_, _) =>
    case AtComplete(_) =>
    case AtRelease(_) =>
    case Done(_) =>
  }

  /** And when an expiry does: if the record reserved the unused key for a call past SET NX that has not finished. */
  lemma ExpiryIsFlagged(s: State, k: Key)
    ensures ExpireRecord(s, k).redis == s.redis - {k}
    ensures var owner := if k in s.redis && s.redis[k].InFlight? then s.redis[k].owner else |s.calls|;
            ExpireRecord(s, k).flags == s.flags.(expired := s.flags.expired +
              if owner < |s.calls| && k !in s.db.index
                 && !s.calls[owner].pc.Fresh? && !s.calls[owner].pc.AtSetNX? && !s.calls[owner].pc.AtGet?
                 && !s.calls[owner].pc.AtComplete? && !s.calls[owner].pc.Done?
              then {k} else {})
  {
  }

  /** One call steps; call `d`, the same or another, keeps its claim. */
  lemma CallKeepsClaim(s: State, a: Action, k: Key, d: nat)
    requires TableOk(s.db) && CallsOk(s.db, s.calls) && OfCall(a) && a.c < |s.calls| && d < |s.calls|
    requires Claims(s.db.index, s.redis, s.calls, k) && s.calls[d].terms.key == k
    requires Clean(CallAction(s, a).flags, k)
    ensures var g := CallAction(s, a); Claim(g.db.index, g.redis, d, if d == a.c then g.call else s.calls[d])
  {
    var f, other := FrontOf(s, a.c), s.calls[d];
    assert CallOk(s.db.terms, f.call) && Claim(s.db.index, s.redis, d, other);
    match a {
      case CallStep(c, id, now) =>
        var blocked := InsertBlocked(s, c, id);
        if d == c {
          NextKeepsOwnClaim(f, c, id, now, blocked);
        } else {
          NextKeepsOtherClaims(f, c, id, now, blocked, d, other);
        }
      case CallRedisFault(c, applied) => RedisFaultKeepsClaims(f, c, applied, d, other);
      case CallDbFault(c, applied) => DbFaultKeepsClaims(f, c, applied, d, other);
      case CallCrash(_) =>
    }
  }

  lemma CallViolatesNothing(s: State, a: Action)
    requires TableOk(s.db) && CallsOk(s.db, s.calls) && OfCall(a) && a.c < |s.calls|
    requires Claim(s.db.index, s.redis, a.c, s.calls[a.c])
    requires Clean(CallAction(s, a).flags, s.calls[a.c].terms.key)
    ensures CallAction(s, a).flags.violated == s.flags.violated
  {
    var f := FrontOf(s, a.c);
    assert CallOk(s.db.terms, f.call);
    match a {
      case CallStep(c, id, now) => NextKeepsOwnClaim(f, c, id, now, InsertBlocked(s, c, id));
      case CallRedisFault(c, applied) => RedisFaultKeepsClaims(f, c, applied, c, f.call);
      case CallDbFault(c, applied) => DbFaultKeepsClaims(f, c, applied, c, f.call);
      case CallCrash(_) =>
    }
  }

  lemma CallKeepsTier(s: State, a: Action, k: Key)
    requires Rows(s) && Tier(s, k) && OfCall(a) && a.c < |s.calls|
    ensures Tier(WithFront(s, a.c, CallAction(s, a)), k)
  {
    var g := CallAction(s, a);
    FlagsOfCall(s, a, k);
    if Clean(g.flags, k) {
      hide CallAction, CallsOk, TableOk, OutboxOk, RecordsOk, AttemptsOk;
      if s.calls[a.c].terms.key == k {
        CallViolatesNothing(s, a);
      }
      var calls' := s.calls[a.c := g.call];
      forall d | 0 <= d < |calls'| && calls'[d].terms.key == k ensures Claim(g.db.index, g.redis, d, calls'[d]) {
        CallKeepsClaim(s, a, k, d);
      }
    }
  }

  /** Caching a settled payment writes only under a key that the table knows. */
  lemma CachingKeepsClaims(index: map<Key, PayId>, redis: map<Key, Record>, calls: seq<Call>, k: Key, p: Payment, l: Key)
    requires Claims(index, redis, calls, l) && k in index
    ensures Claims(index, redis[k := Completed(p)], calls, l)
  {
    forall c | 0 <= c < |calls| && calls[c].terms.key == l ensures Claim(index, redis[k := Completed(p)], c, calls[c]) {
      assert Claim(index, redis, c, calls[c]);
    }
  }

  lemma AttemptKeepsClaims(db: Tables, b: Back, a: Action, calls: seq<Call>, k: Key)
    requires TableOk(db) && Claims(db.index, b.redis, calls, k) && OfSaga(a) && b.att.pay in db.terms
    ensures Claims(db.index, SagaAction(b, db.terms[b.att.pay], a).redis, calls, k)
  {
    var t := db.terms[b.att.pay];
    SagaWritesOneRecord(b, t, a);
    if b.att.phase.Caching? {
      CachingKeepsClaims(db.index, b.redis, calls, t.key, b.att.phase.settled, k);
    }
  }

  /** A record may expire, unless a call for its unused key still relies on it. */
  lemma ExpireKeepsTier(s: State, k: Key, l: Key)
    requires Tier(s, l)
    ensures Tier(ExpireRecord(s, k), l)
  {
    var s' := ExpireRecord(s, k);
    if Clean(s'.flags, l) {
      forall c | 0 <= c < |s.calls| && s.calls[c].terms.key == l ensures Claim(s'.db.index, s'.redis, c, s.calls[c]) {
        assert Claim(s.db.index, s.redis, c, s.calls[c]);
      }
    }
  }

  lemma ApplyKeepsTier(s: State, a: Action, k: Key)
    requires Rows(s) && Tier(s, k)
    ensures Tier(Apply(s, a), k)
  {
    hide CallAction, ApplySaga, ApplyWorker, ApplyOther, Rows, Tier;
    if OfCall(a) {
      if a.c < |s.calls| {
        CallKeepsTier(s, a, k);
      }
    } else if OfSaga(a) {
      AttemptKeepsTier(s, a, k);
    } else {
      OthersKeepTier(s, a, k);
    }
  }

  lemma AttemptKeepsTier(s: State, a: Action, k: Key)
    requires Rows(s) && Tier(s, k) && OfSaga(a)
    ensures Tier(ApplySaga(s, a), k)
  {
    hide SagaAction, Claims;
    if a.a < |s.attempts| && s.attempts[a.a].pay in s.db.terms && Clean(s.flags, k) {
      AttemptKeepsClaims(s.db, BackOf(s, a.a), a, s.calls, k);
    }
    hide Rows, TableOk, OutboxOk, CallsOk, RecordsOk, AttemptsOk;
  }

  lemma OthersKeepTier(s: State, a: Action, k: Key)
    requires !OfCall(a) && !OfSaga(a) && Tier(s, k)
    ensures Tier(Apply(s, a), k)
  {
    if a.Expire? {
      ExpireKeepsTier(s, a.key, k);
      hide Tier;
    }
    hide WorkerAction;
  }

  lemma {:induction false} RunKeepsTier(s: State, acts: seq<Action>, k: Key)
    requires Rows(s) && Tier(s, k)
    ensures Rows(Run(s, acts)) && Tier(Run(s, acts), k)
    decreases |acts|
  {
    if acts != [] {
      ApplyKeepsRows(s, acts[0]);
      ApplyKeepsTier(s, acts[0], k);
      RunKeepsTier(Apply(s, acts[0]), acts[1..], k);
    }
  }

  /**
   On every key, no insert of CreatePayment ever hits the unique index: failed
   commits, failed releases and cache writes, retries, crashes, and whatever
   happens to other keys included.  Excepted are keys on which, while they were
   unused, a call went on to the database without a reservation (its SET NX or GET
   failed, or its GET found the record gone), or the reservation of a call still
   at work expired.
   */
  lemma RedisTierSuffices(requests: seq<Terms>, workers: nat, money: Db, acts: seq<Action>, k: Key)
    requires Clean(Run(Init(requests, workers, money), acts).flags, k)
    ensures k !in Run(Init(requests, workers, money), acts).flags.violated
  {
    RunKeepsTier(Init(requests, workers, money), acts, k);
  }

  // ---------------------------------------------------------------------------
  // What a call past the tier without the key's only reservation can lead to
  // ---------------------------------------------------------------------------

  /** The call has passed the Redis tier and not yet inserted. */
  predicate Past(call: Call) {
    call.pc.AtDbCheck? || call.pc.AtInsert?
  }

  /** The call is past the tier, or can still make a reservation. */
  predicate GetsPast(s: State, call: Call) {
    Past(call) ||
    (call.terms.key !in s.redis && (call.pc.AtSetNX? || (call.pc.Fresh? && Valid(call.terms))))
  }

  /** No row with this key is stored or being inserted. */
  predicate Unused(s: State, k: Key) {
    k !in s.db.index && !(exists e :: 0 <= e < |s.calls| && Inserting(s.calls[e]) && s.calls[e].terms.key == k)
  }

  predicate NewId(s: State, id: PayId) {
    IsPaymentRef(id) && !IdTaken(s.db, s.calls, id)
  }

  lemma {:induction false} LongerThan(ids: set<PayId>) returns (n: nat)
    ensures forall id :: id in ids ==> |id| < n
  {
    n := 0;
    if ids != {} {
      var id :| id in ids;
      n := LongerThan(ids - {id});
      n := if |id| < n then n else |id| + 1;
    }
  }

  /** There are always new ids to draw. */
  lemma NewIds(s: State) returns (i: PayId, j: PayId)
    ensures NewId(s, i) && NewId(s, j) && i != j
  {
    var n := LongerThan(s.db.terms.Keys + set d | 0 <= d < |s.calls| && Inserting(s.calls[d]) :: Uncommitted(s.calls[d]).id);
    i, j := "pay_" + seq(n, _ => 'x'), "pay_" + seq(n + 1, _ => 'x');
    assert |i| == n + 4 && |j| == n + 5 && i[..4] == "pay_" && j[..4] == "pay_";
  }

  /** A call that gets past the tier gets to its INSERT, finding the table without the key. */
  lemma GetToInsert(s: State, k: Key, c: nat) returns (acts: seq<Action>, s': State)
    requires c < |s.calls| && s.calls[c].terms.key == k && k !in s.db.index && GetsPast(s, s.calls[c])
    ensures Run(s, acts) == s' && s'.db == s.db && s'.flags == s.flags
    ensures |s'.calls| == |s.calls| && s'.calls == s.calls[c := s'.calls[c]]
    ensures s'.calls[c].pc == AtInsert && s'.calls[c].terms.key == k
    decreases match s.calls[c].pc case Fresh => 3 case AtSetNX => 2 case AtDbCheck => 1 case _ => 0
  {
    if s.calls[c].pc.AtInsert? {
      acts, s' := [], s;
      assert s.calls[c := s.calls[c]] == s.calls;
    } else {
      var a := CallStep(c, "", 0);
      var s1 := StepTowardsInsert(s, k, c);
      hide Apply, GetsPast;
      acts, s' := GetToInsert(s1, k, c);
      acts := [a] + acts;
      assert acts[0] == a;
      assert Run(s, acts) == Run(s1, acts[1..]);
      assert s'.calls == s.calls[c := s'.calls[c]];
    }
  }

  lemma StepTowardsInsert(s: State, k: Key, c: nat) returns (s': State)
    requires c < |s.calls| && s.calls[c].terms.key == k && k !in s.db.index && GetsPast(s, s.calls[c])
    requires !s.calls[c].pc.AtInsert?
    ensures s' == Apply(s, CallStep(c, "", 0)) && s'.db == s.db && s'.flags == s.flags
    ensures |s'.calls| == |s.calls| && s'.calls == s.calls[c := s'.calls[c]]
    ensures s'.calls[c].terms.key == k && GetsPast(s', s'.calls[c])
    ensures s'.calls[c].pc == match s.calls[c].pc case Fresh => AtSetNX case AtSetNX => AtDbCheck case _ => AtInsert
  {
    s' := Apply(s, CallStep(c, "", 0));
    match s.calls[c].pc
    case Fresh =>
    case AtSetNX =>
    case AtDbCheck =>
  }

  /** With the key unused an INSERT executes, */
  lemma InsertExecutes(s: State, c: nat, i: PayId) returns (s': State)
    requires c < |s.calls| && s.calls[c].pc == AtInsert && Unused(s, s.calls[c].terms.key) && NewId(s, i)
    ensures s' == Apply(s, CallStep(c, i, 0))
    ensures s' == s.(calls := s.calls[c := s.calls[c].(pc := AtOutbox(Payment(i, s.calls[c].terms, PENDING)))])
  {
    s' := Apply(s, CallStep(c, i, 0));
    assert !InsertBlocked(s, c, i);
  }

  /** and the transaction commits, */
  lemma CommitExecutes(s: State, c: nat, p: Payment) returns (s': State)
    requires c < |s.calls| && s.calls[c].pc == AtOutbox(p)
    ensures s' == Apply(Apply(s, CallStep(c, "", 0)), CallStep(c, "", 0))
    ensures s'.db == Committed(s.db, p, [CreatedRow(p, 0)]) && s'.flags == s.flags
    ensures s'.calls == s.calls[c := s.calls[c].(pc := AtComplete(p))]
  {
    var m := Apply(s, CallStep(c, "", 0));
    assert m == s.(calls := s.calls[c := s.calls[c].(pc := AtCommit(p, [CreatedRow(p, 0)]))]);
    s' := Apply(m, CallStep(c, "", 0));
  }

  /** and then the next INSERT of the key runs into the unique index. */
  lemma InsertViolates(s: State, d: nat, j: PayId)
    requires d < |s.calls| && s.calls[d].pc == AtInsert && s.calls[d].terms.key in s.db.index && NewId(s, j)
    requires !KeyLocked(s.calls, d, s.calls[d].terms.key)
    ensures Apply(s, CallStep(d, j, 0)).flags == s.flags.(violated := s.flags.violated + {s.calls[d].terms.key})
  {
    assert !InsertBlocked(s, d, j);
  }

  /** Two calls at their INSERT of one unused key. */
  lemma InsertsCollide(s: State, k: Key, c: nat, d: nat) returns (acts: seq<Action>)
    requires c < |s.calls| && d < |s.calls| && c != d && Unused(s, k)
    requires s.calls[c].pc == AtInsert && s.calls[c].terms.key == k && s.calls[d].pc == AtInsert && s.calls[d].terms.key == k
    ensures Run(s, acts).flags == s.flags.(violated := s.flags.violated + {k})
  {
    var i, j := NewIds(s);
    var p := Payment(i, s.calls[c].terms, PENDING);
    var s1 := InsertExecutes(s, c, i);
    var s3 := CommitExecutes(s1, c, p);
    assert s3.calls == s.calls[c := s.calls[c].(pc := AtComplete(p))];
    StillNew(s, s3, c, p, j);
    InsertViolates(s3, d, j);
    var a1, a2, a3 := CallStep(c, i, 0), CallStep(c, "", 0), CallStep(d, j, 0);
    hide Apply;
    Then(s, [], a1);
    Then(s, [] + [a1], a2);
    Then(s, [] + [a1] + [a2], a2);
    acts := [] + [a1] + [a2] + [a2] + [a3];
    Then(s, [] + [a1] + [a2] + [a2], a3);
  }

  lemma StillNew(s: State, s3: State, c: nat, p: Payment, j: PayId)
    requires c < |s.calls| && s.calls[c].pc == AtInsert && Unused(s, s.calls[c].terms.key) && NewId(s, j) && j != p.id
    requires s3.db == Committed(s.db, p, [CreatedRow(p, 0)]) && s3.calls == s.calls[c := s.calls[c].(pc := AtComplete(p))]
    ensures NewId(s3, j)
    ensures forall d :: 0 <= d < |s.calls| ==> !KeyLocked(s3.calls, d, s.calls[c].terms.key)
  {
    forall e | 0 <= e < |s3.calls| && Inserting(s3.calls[e])
      ensures s3.calls[e] == s.calls[e] && Uncommitted(s3.calls[e]).id != j && s3.calls[e].terms.key != s.calls[c].terms.key
    {
      assert e != c;
    }
  }

  /**
   What the exceptions lead to: from any state with the key unused, once a call is
   past the tier and another one gets past it too, a continuation that raises no
   other flag makes an insert hit the unique index.
   */
  lemma CollisionAwaits(s: State, k: Key, c: nat, d: nat) returns (acts: seq<Action>)
    requires c < |s.calls| && d < |s.calls| && c != d && Unused(s, k)
    requires s.calls[c].terms.key == k && Past(s.calls[c]) && s.calls[d].terms.key == k && GetsPast(s, s.calls[d])
    ensures Run(s, acts).flags == s.flags.(violated := s.flags.violated + {k})
  {
    var xs, s1 := GetToInsert(s, k, d);
    assert s1.calls[c] == s.calls[c];
    var ys, s2 := GetToInsert(s1, k, c);
    assert s2.calls[d] == s1.calls[d];
    forall e | 0 <= e < |s2.calls| && Inserting(s2.calls[e]) ensures s2.calls[e] == s.calls[e] {
      assert e != c && e != d;
    }
    assert Unused(s2, k);
    hide Apply, GetsPast, Unused;
    var zs := InsertsCollide(s2, k, c, d);
    RunAppend(s, xs, ys);
    RunAppend(s, xs + ys, zs);
    acts := xs + ys + zs;
  }

  // ---------------------------------------------------------------------------
  // Each of the exceptions can arise alone, and then leads there
  // ---------------------------------------------------------------------------

  const SAME := Terms("k", "a", "b", 1, "USD")

  const WAITING := Call(SAME, Fresh)

  /** Three equal requests. */
  function Start(money: Db): State {
    Init([SAME, SAME, SAME], 0, money)
  }

  /** Call `c` asks Redis for the key. */
  lemma Ask(s0: State, acts0: seq<Action>, s1: State, c: nat) returns (acts: seq<Action>, s: State)
    requires Run(s0, acts0) == s1 && c < |s1.calls| && s1.calls[c] == WAITING
    ensures Run(s0, acts) == s
    ensures s == if "k" in s1.redis then s1.(calls := s1.calls[c := Call(SAME, AtGet)])
                 else s1.(calls := s1.calls[c := Call(SAME, AtDbCheck)], redis := s1.redis["k" := InFlight(SAME, c)])
  {
    var a := CallStep(c, "", 0);
    Then(s0, acts0, a);
    acts, s := acts0 + [a], Apply(s1, a);
    assert s.calls[c] == Call(SAME, AtSetNX);
    Then(s0, acts, a);
    acts, s := acts + [a], Apply(s, a);
  }

  /** The call fails at its INSERT and releases the key. */
  lemma FailAndRelease(s0: State, acts0: seq<Action>, s1: State, c: nat) returns (acts: seq<Action>, s: State)
    requires Run(s0, acts0) == s1 && c < |s1.calls| && s1.calls[c] == Call(SAME, AtDbCheck) && "k" !in s1.db.index
    ensures Run(s0, acts) == s
    ensures s == s1.(calls := s1.calls[c := Call(SAME, Done(Refused(DbError)))], redis := s1.redis - {"k"})
  {
    var a, b := CallStep(c, "", 0), CallDbFault(c, false);
    Then(s0, acts0, a);
    acts, s := acts0 + [a], Apply(s1, a);
    assert s.calls[c] == Call(SAME, AtInsert);
    Then(s0, acts, b);
    acts, s := acts + [b], Apply(s, b);
    assert s.calls[c] == Call(SAME, AtRelease(DbError));
    Then(s0, acts, a);
    acts, s := acts + [a], Apply(s, a);
  }

  lemma ThenCollide(s0: State, acts0: seq<Action>, s: State) returns (acts: seq<Action>)
    requires Run(s0, acts0) == s && |s.calls| == 3 && !Inserting(s.calls[0]) && "k" !in s.db.index
    requires s.calls[1] == Call(SAME, AtDbCheck)
    requires s.calls[2] == Call(SAME, AtDbCheck) || (s.calls[2] == WAITING && "k" !in s.redis)
    ensures Run(s0, acts).flags == s.flags.(violated := s.flags.violated + {"k"})
  {
    var more := CollisionAwaits(s, "k", 1, 2);
    RunAppend(s0, acts0, more);
    acts := acts0 + more;
  }

  /**
   A healthy Redis is not enough: no command fails and nothing expires, but a GET
   comes after the release of the record that stopped its SET NX.
   */
  lemma HealthyRedisIsNotEnough(money: Db) returns (acts: seq<Action>)
    ensures Run(Start(money), acts).flags == NO_FLAGS.(missedGet := {"k"}, violated := {"k"})
  {
    var s0, a := Start(money), CallStep(1, "", 0);
    var s;
    acts, s := Ask(s0, [], s0, 0);
    acts, s := Ask(s0, acts, s, 1);
    acts, s := FailAndRelease(s0, acts, s, 0);
    Then(s0, acts, a);
    acts, s := acts + [a], Apply(s, a);
    assert s.flags == NO_FLAGS.(missedGet := {"k"});
    acts := ThenCollide(s0, acts, s);
  }

  /** One failed SET NX is enough. */
  lemma FailedSetNXCollides(money: Db) returns (acts: seq<Action>)
    ensures Run(Start(money), acts).flags == NO_FLAGS.(failedSetNX := {"k"}, violated := {"k"})
  {
    var s0, a, b := Start(money), CallStep(1, "", 0), CallRedisFault(1, false);
    Then(s0, [], a);
    var s;
    acts, s := [] + [a], Apply(s0, a);
    assert s.calls[1] == Call(SAME, AtSetNX);
    Then(s0, acts, b);
    acts, s := acts + [b], Apply(s, b);
    assert s.flags == NO_FLAGS.(failedSetNX := {"k"});
    acts := ThenCollide(s0, acts, s);
  }

  /** So is one failed GET, */
  lemma FailedGetCollides(money: Db) returns (acts: seq<Action>)
    ensures Run(Start(money), acts).flags == NO_FLAGS.(failedGet := {"k"}, violated := {"k"})
  {
    var s0, b := Start(money), CallRedisFault(1, true);
    var s;
    acts, s := Ask(s0, [], s0, 2);
    acts, s := Ask(s0, acts, s, 1);
    Then(s0, acts, b);
    acts, s := acts + [b], Apply(s, b);
    assert s.flags == NO_FLAGS.(failedGet := {"k"});
    acts := ThenCollide(s0, acts, s);
  }

  /** and one reservation that expires under a call at work. */
  lemma ExpiredReservationCollides(money: Db) returns (acts: seq<Action>)
    ensures Run(Start(money), acts).flags == NO_FLAGS.(expired := {"k"}, violated := {"k"})
  {
    var s0, b := Start(money), Expire("k");
    var s;
    acts, s := Ask(s0, [], s0, 1);
    Then(s0, acts, b);
    acts, s := acts + [b], Apply(s, b);
    assert s.flags == NO_FLAGS.(expired := {"k"});
    acts := ThenCollide(s0, acts, s);
  }
}
