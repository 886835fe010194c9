/**
 Deadlock freedom and termination of interleaved transfers: because the two row
 locks are taken in the order of `Less`, waiting can never close a circle.
 */
module TransferLiveness {
  import opened Accounts
  import opened Lex
  import opened Transfers

  /** The row a transaction that has not got both locks asks for next. */
  function Want(tx: Tx): Id {
    if tx.pc.Begun? then First(tx.req) else Second(tx.req)
  }

  /** `t` waits for a row that `u` has locked. */
  predicate WaitsFor(s: State, t: nat, u: nat) {
    && t < |s.txs| && u < |s.txs| && t != u
    && (s.txs[t].pc.Begun? || s.txs[t].pc.FirstLocked?)
    && Want(s.txs[t]) in s.locks && s.locks[Want(s.txs[t])] == u
  }

  /** A chain of transactions, each waiting for the next. */
  ghost predicate WaitChain(s: State, p: seq<nat>) {
    forall i :: 0 <= i < |p| - 1 ==> WaitsFor(s, p[i], p[i + 1])
  }

  lemma WantsAscend(s: State, t: nat, u: nat, v: nat, db0: Db, reqs: seq<Request>)
    requires Inv(s, db0, reqs) && WaitsFor(s, t, u) && WaitsFor(s, u, v)
    ensures Less(Want(s.txs[t]), Want(s.txs[u]))
  {
    assert Want(s.txs[t]) in Held(s.txs[u]);
    FirstBeforeSecond(s.txs[u].req);
  }

  lemma {:induction false} ChainAscends(s: State, p: seq<nat>, db0: Db, reqs: seq<Request>)
    requires Inv(s, db0, reqs) && WaitChain(s, p) && |p| >= 3
    ensures p[0] < |s.txs| && p[|p| - 2] < |s.txs|
    ensures Less(Want(s.txs[p[0]]), Want(s.txs[p[|p| - 2]]))
  {
    hide Inv, Less, Want;
    var n := |p|;
    assert WaitsFor(s, p[0], p[1]);
    assert WaitsFor(s, p[n - 3], p[n - 2]) && WaitsFor(s, p[n - 2], p[n - 1]);
    WantsAscend(s, p[n - 3], p[n - 2], p[n - 1], db0, reqs);
    if n > 3 {
      ChainAscends(s, p[..n - 1], db0, reqs);
      Transitive(Want(s.txs[p[0]]), Want(s.txs[p[n - 3]]), Want(s.txs[p[n - 2]]));
    }
  }

  lemma ChainDoesNotClose(s: State, p: seq<nat>, db0: Db, reqs: seq<Request>)
    requires Inv(s, db0, reqs) && WaitChain(s, p) && |p| >= 2
    ensures p[0] != p[|p| - 1]
  {
    hide Inv, Less, Want;
    if p[0] == p[|p| - 1] {
      assert WaitsFor(s, p[0], p[1]);
      var q := p + [p[1]];
      assert WaitChain(s, q);
      ChainAscends(s, q, db0, reqs);
      Irreflexive(Want(s.txs[p[0]]));
    }
  }

  /** Deadlock freedom: in every reachable state the wait-for graph is acyclic. */
  lemma WaitForIsAcyclic(db0: Db, reqs: seq<Request>, acts: seq<Action>, p: seq<nat>)
    requires |p| >= 2 && WaitChain(Run(Init(db0, reqs), acts), p)
    ensures p[0] != p[|p| - 1]
  {
    RunKeepsInv(Init(db0, reqs), acts, db0, reqs);
    ChainDoesNotClose(Run(Init(db0, reqs), acts), p, db0, reqs);
  }

  predicate AllDone(txs: seq<Tx>) {
    forall t :: 0 <= t < |txs| ==> !Live(txs[t])
  }

  /** The live transaction that wants the last row of all. */
  lemma LastWanter(txs: seq<Tx>) returns (t: nat)
    requires !AllDone(txs)
    ensures t < |txs| && Live(txs[t])
    ensures forall u :: 0 <= u < |txs| && Live(txs[u]) ==> !Less(Want(txs[t]), Want(txs[u]))
  {
    var wanted := set u | 0 <= u < |txs| && Live(txs[u]) :: Want(txs[u]);
    var t0: nat :| t0 < |txs| && Live(txs[t0]);
    assert Want(txs[t0]) in wanted;
    var last := Greatest(wanted);
    t :| t < |txs| && Live(txs[t]) && Want(txs[t]) == last;
    forall u | 0 <= u < |txs| && Live(txs[u]) ensures !Less(last, Want(txs[u])) {
      assert Want(txs[u]) in wanted;
      Irreflexive(last);
      if Less(last, Want(txs[u])) {
        Transitive(last, Want(txs[u]), last);
      }
    }
  }

  predicate Waiting(s: State, t: nat)
    requires t < |s.txs|
  {
    var tx := s.txs[t];
    (tx.pc.Begun? || tx.pc.FirstLocked?) && Busy(s, t, Want(tx))
  }

  /** A live transaction is stuck exactly when it waits for another one's row lock. */
  lemma StuckMeansWaiting(s: State, t: nat, db0: Db, reqs: seq<Request>)
    requires Inv(s, db0, reqs) && t < |s.txs| && Live(s.txs[t])
    ensures Step(s, t) == s <==> Waiting(s, t)
    ensures Waiting(s, t) <==> exists u :: WaitsFor(s, t, u)
  {
    var tx := s.txs[t];
    assert TxOk(s.db, tx) && LocksOk(s.txs, s.locks);
    if Waiting(s, t) {
      assert TxOk(s.db, s.txs[s.locks[Want(tx)]]);
    }
    hide Inv;
    StuckMeansBusy(s, t);
    hide TxOk, Step;
    if Waiting(s, t) {
      assert WaitsFor(s, t, s.locks[Want(tx)]);
    }
  }

  lemma StuckMeansBusy(s: State, t: nat)
    requires t < |s.txs| && Live(s.txs[t]) && LocksOk(s.txs, s.locks) && TxOk(s.db, s.txs[t])
    requires Waiting(s, t) ==> Want(s.txs[t]) in s.db.rows
    ensures Step(s, t) == s <==> Waiting(s, t)
  {
    var tx := s.txs[t];
    if 3 <= Rank(tx.pc) <= 6 {
      WorkGoesThrough(s, t);
    }
    assert Step(s, t) != s ==> Step(s, t).txs[t].pc != tx.pc;
  }

  lemma HolderIsLive(s: State, t: nat, u: nat)
    requires LocksOk(s.txs, s.locks) && WaitsFor(s, t, u)
    ensures Live(s.txs[u])
  {
    assert Want(s.txs[t]) in Held(s.txs[u]);
  }

  /** The transaction that wants the last row, or the one it waits for, does not wait. */
  lemma SomeoneDoesNotWait(s: State, db0: Db, reqs: seq<Request>) returns (t: nat)
    requires Inv(s, db0, reqs) && !AllDone(s.txs)
    ensures t < |s.txs| && Live(s.txs[t]) && !Waiting(s, t)
  {
    t := LastWanter(s.txs);
    if Waiting(s, t) {
      var u := s.locks[Want(s.txs[t])];
      HolderIsLive(s, t, u);
      if Waiting(s, u) {
        WantsAscend(s, t, u, s.locks[Want(s.txs[u])], db0, reqs);
      }
      t := u;
    }
  }

  /** While some transfer is unfinished, some transfer can execute its next statement. */
  lemma SomeoneCanStep(s: State, db0: Db, reqs: seq<Request>) returns (t: nat)
    requires Inv(s, db0, reqs) && !AllDone(s.txs)
    ensures t < |s.txs| && Live(s.txs[t]) && Step(s, t) != s
  {
    t := SomeoneDoesNotWait(s, db0, reqs);
    StuckMeansWaiting(s, t, db0, reqs);
  }

  /** How many statements the transactions can still execute. */
  function Remaining(txs: seq<Tx>): nat {
    if txs == [] then 0 else (8 - Rank(txs[0].pc)) + Remaining(txs[1..])
  }

  lemma {:induction false} RemainingUpdate(txs: seq<Tx>, t: nat, tx: Tx)
    requires t < |txs|
    ensures Remaining(txs[t := tx]) == Remaining(txs) + Rank(txs[t].pc) - Rank(tx.pc)
  {
    if t > 0 {
      assert txs[t := tx][1..] == txs[1..][t - 1 := tx];
      RemainingUpdate(txs[1..], t - 1, tx);
    } else {
      assert txs[t := tx][1..] == txs[1..];
    }
  }

  /** A statement changes no other transaction, and moves its own one on unless it waits. */
  lemma StepIsLocal(s: State, t: nat)
    requires t < |s.txs| && Live(s.txs[t])
    ensures |Step(s, t).txs| == |s.txs| && Step(s, t).txs == s.txs[t := Step(s, t).txs[t]]
    ensures Step(s, t) == s || Rank(Step(s, t).txs[t].pc) > Rank(s.txs[t].pc)
  {
    match s.txs[t].pc
    case Fresh =>
    case Begun =>
    case FirstLocked =>
    case BothLocked =>
    case SourceUpdated =>
    case DestUpdated =>
    case Debited =>
    case Credited =>
  }

  /** Every action that changes anything uses up at least one statement. */
  lemma ActionUsesUp(s: State, a: Action)
    requires Apply(s, a) != s
    ensures Remaining(Apply(s, a).txs) < Remaining(s.txs)
  {
    if a.Exec? {
      StepIsLocal(s, a.t);
    }
    RemainingUpdate(s.txs, a.t, Apply(s, a).txs[a.t]);
  }

  predicate Productive(s: State, acts: seq<Action>)
    decreases |acts|
  {
    acts != [] ==> Apply(s, acts[0]) != s && Productive(Apply(s, acts[0]), acts[1..])
  }

  /** Termination: no schedule of N transfers has more than 8 * N effective actions. */
  lemma {:induction false} RunsAreShort(s: State, acts: seq<Action>)
    requires Productive(s, acts)
    ensures |acts| + Remaining(Run(s, acts).txs) <= Remaining(s.txs) <= 8 * |s.txs|
    decreases |acts|
  {
    RemainingBound(s.txs);
    if acts != [] {
      ActionUsesUp(s, acts[0]);
      RunsAreShort(Apply(s, acts[0]), acts[1..]);
    }
  }

  lemma {:induction false} RemainingBound(txs: seq<Tx>)
    ensures Remaining(txs) <= 8 * |txs|
  {
    if txs != [] {
      RemainingBound(txs[1..]);
    }
  }

  /** A schedule that cannot be extended by any statement has finished every transfer. */
  lemma MaximalRunsFinish(db0: Db, reqs: seq<Request>, acts: seq<Action>)
    requires var s := Run(Init(db0, reqs), acts); forall t: nat :: t < |s.txs| ==> Step(s, t) == s
    ensures AllDone(Run(Init(db0, reqs), acts).txs)
  {
    var s := Run(Init(db0, reqs), acts);
    RunKeepsInv(Init(db0, reqs), acts, db0, reqs);
    if !AllDone(s.txs) {
      var t := SomeoneCanStep(s, db0, reqs);
    }
  }

  /** From every reachable state all transfers can be finished without rolling any back by force. */
  lemma {:induction false} CanFinish(s: State, db0: Db, reqs: seq<Request>) returns (acts: seq<Action>)
    requires Inv(s, db0, reqs)
    ensures AllDone(Run(s, acts).txs) && forall i :: 0 <= i < |acts| ==> acts[i].Exec?
    decreases Remaining(s.txs)
  {
    acts := [];
    if !AllDone(s.txs) {
      var t := SomeoneCanStep(s, db0, reqs);
      var a := Exec(t);
      assert Apply(s, a) != s;
      hide Apply, Inv;
      ApplyKeepsInv(s, a, db0, reqs);
      ActionUsesUp(s, a);
      var rest := CanFinish(Apply(s, a), db0, reqs);
      acts := [a] + rest;
      assert acts[1..] == rest;
    }
  }
}
