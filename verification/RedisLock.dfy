/**
 TransferWithRedisLock: transfers that first take one Redis lock per account.
 The locks may expire at any moment; they can only refuse or delay transfers.
 */
module RedisLock {
  import opened Accounts
  import opened Transfers
  import opened Lex
  import L = LedgerAudit

  /** Where a call is: before its first lock, between the locks, transferring, releasing, gone. */
  datatype Phase = Outside | HasFirst | Inside | Leaving | Gone

  /** `redis` maps a lock key (its account) to the call whose token is stored there. */
  datatype WState = WState(core: State, redis: map<Id, nat>, phases: seq<Phase>)

  datatype WAction = Acquire(t: nat) | Inner(a: Action) | Release(t: nat) | Expire(id: Id)

  /** AcquireLock: SET NX with the caller's token. */
  function SetNX(redis: map<Id, nat>, id: Id, t: nat): map<Id, nat> {
    if id in redis then redis else redis[id := t]
  }

  /** Lock.Release: deletes the key only if it still stores the caller's token. */
  function ReleaseKey(redis: map<Id, nat>, id: Id, t: nat): map<Id, nat> {
    if id in redis && redis[id] == t then redis - {id} else redis
  }

  function WStep(w: WState, a: WAction): WState {
    match a
    case Expire(id) => w.(redis := w.redis - {id})
    case Acquire(t) =>
      if t >= |w.phases| || t >= |w.core.txs| then w
      else
        var r := w.core.txs[t].req;
        (match w.phases[t]
         case Outside =>
           if First(r) in w.redis then w.(phases := w.phases[t := Gone])
           else w.(redis := SetNX(w.redis, First(r), t), phases := w.phases[t := HasFirst])
         case HasFirst =>
           if Second(r) in w.redis then
             w.(redis := ReleaseKey(w.redis, First(r), t), phases := w.phases[t := Gone])
           else w.(redis := SetNX(w.redis, Second(r), t), phases := w.phases[t := Inside])
         case _ => w)
    case Inner(b) =>
      if b.t < |w.phases| && w.phases[b.t].Inside? then w.(core := Apply(w.core, b)) else w
    case Release(t) =>
      if t >= |w.phases| || t >= |w.core.txs| || Live(w.core.txs[t]) then w
      else
        var r := w.core.txs[t].req;
        (match w.phases[t]
         case Inside => w.(redis := ReleaseKey(w.redis, Second(r), t), phases := w.phases[t := Leaving])
         case Leaving => w.(redis := ReleaseKey(w.redis, First(r), t), phases := w.phases[t := Gone])
         case _ => w)
  }

  function WRun(w: WState, acts: seq<WAction>): WState
    decreases |acts|
  {
    if acts == [] then w else WRun(WStep(w, acts[0]), acts[1..])
  }

  /** The database actions that the lock phases let through. */
  function LetThrough(w: WState, acts: seq<WAction>): seq<Action>
    decreases |acts|
  {
    if acts == [] then []
    else
      var rest := LetThrough(WStep(w, acts[0]), acts[1..]);
      match acts[0]
      case Inner(b) => if b.t < |w.phases| && w.phases[b.t].Inside? then [b] + rest else rest
      case _ => rest
  }

  function WInit(db: Db, reqs: seq<Request>): WState {
    WState(Init(db, reqs), map[], seq(|reqs|, _ => Outside))
  }

  /** The tables behave as in some run without Redis. */
  lemma {:induction false} Projection(w: WState, acts: seq<WAction>)
    ensures WRun(w, acts).core == Run(w.core, LetThrough(w, acts))
    decreases |acts|
  {
    if acts != [] {
      Projection(WStep(w, acts[0]), acts[1..]);
      var rest := LetThrough(WStep(w, acts[0]), acts[1..]);
      if acts[0].Inner? {
        assert ([acts[0].a] + rest)[1..] == rest;
      }
    }
  }

  /** With Redis locks that expire whenever they like, transfers stay serializable and conserve money. */
  lemma RedisLocksChangeNothing(db0: Db, reqs: seq<Request>, acts: seq<WAction>)
    requires L.Agrees(db0) && L.Solvent(db0)
    ensures var s := WRun(WInit(db0, reqs), acts).core;
            && Indices(s.commits, |reqs|) && AllAccepted(db0, reqs, s.commits)
            && s.db == Serial(db0, reqs, s.commits)
            && L.Conserved(db0, s.db) && L.Agrees(s.db) && L.Solvent(s.db)
  {
    var inner := LetThrough(WInit(db0, reqs), acts);
    Projection(WInit(db0, reqs), acts);
    Serializability(db0, reqs, inner);
    L.RunsConserveMoney(db0, reqs, inner);
  }

  /** A call that relies on a Redis lock has its token stored there. */
  predicate Owns(redis: map<Id, nat>, r: Request, phase: Phase, t: nat) {
    && (phase.HasFirst? || phase.Inside? || phase.Leaving? ==> First(r) in redis && redis[First(r)] == t)
    && (phase.Inside? ==> First(r) != Second(r) && Second(r) in redis && redis[Second(r)] == t)
  }

  ghost predicate Exclusive(txs: seq<Tx>, redis: map<Id, nat>, phases: seq<Phase>) {
    && |phases| == |txs|
    && forall t :: 0 <= t < |phases| ==> Owns(redis, txs[t].req, phases[t], t)
  }

  lemma ActionKeepsRequests(s: State, a: Action)
    ensures |Apply(s, a).txs| == |s.txs|
    ensures forall t :: 0 <= t < |s.txs| ==> Apply(s, a).txs[t].req == s.txs[t].req
  {
    if a.t < |s.txs| && a.Exec? {
      match s.txs[a.t].pc
      case Fresh =>
      case Begun =>
      case FirstLocked =>
      case BothLocked =>
      case SourceUpdated =>
      case DestUpdated =>
      case Debited =>
      case Credited =>
      case Committed =>
      case Aborted(_) =>
    }
  }

  lemma TakeKeepsExclusive(txs: seq<Tx>, redis: map<Id, nat>, phases: seq<Phase>, t: nat, id: Id, phase: Phase)
    requires Exclusive(txs, redis, phases) && t < |phases| && id !in redis
    requires Owns(redis[id := t], txs[t].req, phase, t)
    ensures Exclusive(txs, redis[id := t], phases[t := phase])
  {
  }

  lemma GiveKeepsExclusive(txs: seq<Tx>, redis: map<Id, nat>, phases: seq<Phase>, t: nat, id: Id, phase: Phase)
    requires Exclusive(txs, redis, phases) && t < |phases|
    requires Owns(ReleaseKey(redis, id, t), txs[t].req, phase, t)
    ensures Exclusive(txs, ReleaseKey(redis, id, t), phases[t := phase])
  {
  }

  /** Unless a lock expires, no step takes a lock away from the call that holds it. */
  lemma StepKeepsExclusive(w: WState, a: WAction)
    requires Exclusive(w.core.txs, w.redis, w.phases) && !a.Expire?
    ensures var w' := WStep(w, a); Exclusive(w'.core.txs, w'.redis, w'.phases)
  {
    var txs, redis, phases := w.core.txs, w.redis, w.phases;
    if a.Inner? {
      ActionKeepsRequests(w.core, a.a);
    } else if a.t < |phases| {
      var t, r := a.t, txs[a.t].req;
      if a.Acquire? && phases[t].Outside? && First(r) !in redis {
        TakeKeepsExclusive(txs, redis, phases, t, First(r), HasFirst);
      } else if a.Acquire? && phases[t].HasFirst? {
        if Second(r) in redis {
          GiveKeepsExclusive(txs, redis, phases, t, First(r), Gone);
        } else {
          TakeKeepsExclusive(txs, redis, phases, t, Second(r), Inside);
        }
      } else if a.Release? && phases[t].Inside? && !Live(txs[t]) {
        GiveKeepsExclusive(txs, redis, phases, t, Second(r), Leaving);
      } else if a.Release? && phases[t].Leaving? && !Live(txs[t]) {
        GiveKeepsExclusive(txs, redis, phases, t, First(r), Gone);
      }
    }
  }

  lemma {:induction false} RunKeepsExclusive(w: WState, acts: seq<WAction>)
    requires Exclusive(w.core.txs, w.redis, w.phases)
    requires forall i :: 0 <= i < |acts| ==> !acts[i].Expire?
    ensures var w' := WRun(w, acts); Exclusive(w'.core.txs, w'.redis, w'.phases)
    decreases |acts|
  {
    if acts != [] {
      StepKeepsExclusive(w, acts[0]);
      RunKeepsExclusive(WStep(w, acts[0]), acts[1..]);
    }
  }

  /** While no lock expires, two calls that are transferring share no account. */
  lemma NoExpiryMeansExclusion(db0: Db, reqs: seq<Request>, acts: seq<WAction>, t: nat, u: nat)
    requires forall i :: 0 <= i < |acts| ==> !acts[i].Expire?
    requires var w := WRun(WInit(db0, reqs), acts);
             t < u < |w.phases| && w.phases[t].Inside? && w.phases[u].Inside?
    ensures var w := WRun(WInit(db0, reqs), acts);
            && |w.core.txs| == |w.phases|
            && var a, b := w.core.txs[t].req, w.core.txs[u].req;
            {First(a), Second(a)} !! {First(b), Second(b)}
  {
    RunKeepsExclusive(WInit(db0, reqs), acts);
  }

  /** Only calls that are still to release a key have their token under one, and it is one of their accounts. */
  ghost predicate NoneLeft(w: WState) {
    && |w.phases| == |w.core.txs|
    && forall id :: id in w.redis ==>
         && w.redis[id] < |w.phases|
         && var r, phase := w.core.txs[w.redis[id]].req, w.phases[w.redis[id]];
         match phase
         case HasFirst => id == First(r)
         case Inside => id == First(r) || id == Second(r)
         case Leaving => id == First(r)
         case _ => false
  }

  lemma StepLeavesNone(w: WState, a: WAction)
    requires NoneLeft(w)
    ensures NoneLeft(WStep(w, a))
  {
    if a.Inner? {
      ActionKeepsRequests(w.core, a.a);
    }
  }

  lemma {:induction false} RunLeavesNone(w: WState, acts: seq<WAction>)
    requires NoneLeft(w)
    ensures NoneLeft(WRun(w, acts))
    decreases |acts|
  {
    if acts != [] {
      StepLeavesNone(w, acts[0]);
      RunLeavesNone(WStep(w, acts[0]), acts[1..]);
    }
  }

  /**
   Locks are given back: in every run, whatever expires, no key stores the token of a
   call that has not begun or has gone, be it after its transfer or because one of its
   locks was taken; once all calls have gone, no lock is left.
   */
  lemma LocksAreGivenBack(db0: Db, reqs: seq<Request>, acts: seq<WAction>)
    ensures var w := WRun(WInit(db0, reqs), acts);
            && (forall id :: id in w.redis ==>
                  w.redis[id] < |w.phases| && w.phases[w.redis[id]] != Outside && w.phases[w.redis[id]] != Gone)
            && ((forall t :: 0 <= t < |w.phases| ==> w.phases[t] == Gone) ==> w.redis == map[])
  {
    RunLeavesNone(WInit(db0, reqs), acts);
    var w := WRun(WInit(db0, reqs), acts);
    hide WRun;
    assert w.redis != map[] ==> w.redis.Keys != {};
    assert w.redis != map[] ==> exists id :: id in w.redis;
  }

  /** The locks are taken smaller id first; a call that finds one taken gives up, and gives back what it took. */
  lemma LocksAreTaken(w: WState, t: nat)
    requires t < |w.phases| && t < |w.core.txs| && w.phases[t] == Outside
    ensures var r := w.core.txs[t].req;
            var a, b := if Less(r.to, r.from) then r.to else r.from, if Less(r.to, r.from) then r.from else r.to;
            var w1 := WStep(w, Acquire(t));
            var w2 := WStep(w1, Acquire(t));
            if a in w.redis then w1 == w.(phases := w.phases[t := Gone])
            else if b in w.redis || a == b then w2 == w.(phases := w.phases[t := Gone])
            else w2 == w.(redis := w.redis[a := t][b := t], phases := w.phases[t := Inside])
  {
    var r := w.core.txs[t].req;
    if First(r) !in w.redis {
      assert w.redis[First(r) := t] - {First(r)} == w.redis;
    }
  }

  /** When the transfer has ended, both are released. */
  lemma LocksAreReleased(w: WState, t: nat)
    requires t < |w.phases| && t < |w.core.txs| && w.phases[t] == Inside && !Live(w.core.txs[t])
    ensures var r := w.core.txs[t].req;
            var w' := WStep(WStep(w, Release(t)), Release(t));
            && w'.phases == w.phases[t := Gone] && w'.core == w.core
            && (r.from in w.redis && w.redis[r.from] == t ==> r.from !in w'.redis)
            && (r.to in w.redis && w.redis[r.to] == t ==> r.to !in w'.redis)
            && (forall id :: id in w.redis && w.redis[id] != t ==> id in w'.redis && w'.redis[id] == w.redis[id])
  {
  }

  /** The token guard: releasing a key removes it if and only if the caller's token is the one stored. */
  lemma ReleaseOnlyOwn(redis: map<Id, nat>, id: Id, t: nat, other: Id)
    ensures ReleaseKey(redis, id, t) != redis <==> id in redis && redis[id] == t
    ensures other != id && other in redis ==> other in ReleaseKey(redis, id, t) && ReleaseKey(redis, id, t)[other] == redis[other]
    ensures ReleaseKey(SetNX(redis, id, t), id, t) == if id in redis && redis[id] != t then redis else redis - {id}
  {
    if id in redis && redis[id] == t {
      assert id !in ReleaseKey(redis, id, t);
    }
    if id !in redis {
      assert redis[id := t] - {id} == redis - {id};
    }
  }
}
