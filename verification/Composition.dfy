/**
 The whole system: the payment protocol whose transfers are the interleaved
 database transactions of the account service.  Requests arrive there while
 others are under way, their statements interleave under row locks, and an
 attempt's request counts as served when its transaction ends.
 */
module Composition {
  import opened Accounts
  import T = Transfers
  import P = Payments
  import R = PaymentRows
  import S = PaymentSaga
  import V = TransferLiveness
  import L = LedgerAudit

  /** Who asked for a transaction: an attempt of the saga, or somebody else. */
  datatype Origin = OfAttempt(a: nat) | OfOther

  datatype System = System(pay: P.State, core: T.State, origins: seq<Origin>)

  datatype Action =
    | Protocol(p: P.Action)      // any step of the payment protocol that is not a transfer
    | ArriveFrom(a: nat)         // the request of attempt `a` reaches the account service
    | ArriveOther(r: Request)    // somebody else's request does
    | Database(d: T.Action)      // one statement, or one rollback

  function WithTx(core: T.State, r: Request): T.State {
    core.(txs := core.txs + [T.Tx(r, T.Fresh, T.NO_READ, T.NO_READ, map[], [])])
  }

  predicate Arrived(origins: seq<Origin>, a: nat) {
    OfAttempt(a) in origins
  }

  /** What the payment protocol sees of a database action: a transfer that has just ended, or nothing. */
  function Seen(y: System, d: T.Action): seq<P.Action> {
    var core' := T.Apply(y.core, d);
    if d.t >= |y.core.txs| || d.t >= |y.origins| || d.t >= |core'.txs|
       || !T.Live(y.core.txs[d.t]) || T.Live(core'.txs[d.t]) then []
    else match y.origins[d.t]
      case OfAttempt(a) => [P.Serve(a, core'.txs[d.t].pc.Committed?)]
      case OfOther => if core'.txs[d.t].pc.Committed? then [P.Foreign(y.core.txs[d.t].req)] else []
  }

  function Visible(y: System, a: Action): seq<P.Action> {
    match a
    case Protocol(p) => if p.Serve? || p.Foreign? then [] else [p]
    case ArriveFrom(_) => []
    case ArriveOther(_) => []
    case Database(d) => Seen(y, d)
  }

  function Step(y: System, a: Action): System {
    var pay := P.Run(y.pay, Visible(y, a));
    match a
    case Protocol(_) => y.(pay := pay)
    case ArriveFrom(n) =>
      if n < |y.pay.attempts| && y.pay.attempts[n].sent && !Arrived(y.origins, n)
         && y.pay.attempts[n].pay in y.pay.db.terms
      then
        var att := y.pay.attempts[n];
        y.(core := WithTx(y.core, P.TransferOf(att.pay, y.pay.db.terms[att.pay])),
           origins := y.origins + [OfAttempt(n)])
      else y
    case ArriveOther(r) =>
      if P.IsPaymentRef(r.ref) then y else y.(core := WithTx(y.core, r), origins := y.origins + [OfOther])
    case Database(d) => y.(core := T.Apply(y.core, d), pay := pay)
  }

  function Run(y: System, acts: seq<Action>): System
    decreases |acts|
  {
    if acts == [] then y else Run(Step(y, acts[0]), acts[1..])
  }

  function Init(requests: seq<P.Terms>, workers: nat, money: Db): System {
    System(P.Init(requests, workers, money), T.Init(money, []), [])
  }

  function Projection(y: System, acts: seq<Action>): seq<P.Action>
    decreases |acts|
  {
    if acts == [] then [] else Visible(y, acts[0]) + Projection(Step(y, acts[0]), acts[1..])
  }

  // ---------------------------------------------------------------------------
  // Transactions that arrive later
  // ---------------------------------------------------------------------------

  lemma {:induction false} SerialExtends(db: Db, reqs: seq<Request>, r: Request, order: seq<nat>)
    requires Indices(order, |reqs|)
    ensures Serial(db, reqs + [r], order) == Serial(db, reqs, order)
    ensures AllAccepted(db, reqs + [r], order) <==> AllAccepted(db, reqs, order)
  {
    if order != [] {
      SerialExtends(db, reqs, r, order[..|order| - 1]);
    }
  }

  lemma ArrivalKeepsLocks(txs: seq<T.Tx>, locks: map<Id, nat>, tx: T.Tx)
    requires T.LocksOk(txs, locks) && T.Held(tx) == {}
    ensures T.LocksOk(txs + [tx], locks)
  {
    assert forall t :: 0 <= t < |txs| ==> (txs + [tx])[t] == txs[t];
  }

  lemma ArrivalKeepsCommits(txs: seq<T.Tx>, commits: seq<nat>, tx: T.Tx)
    requires T.CommitsOk(txs, commits) && !tx.pc.Committed?
    ensures T.CommitsOk(txs + [tx], commits)
  {
  }

  lemma ArrivalKeepsInv(core: T.State, r: Request, db0: Db, reqs: seq<Request>)
    requires T.Inv(core, db0, reqs)
    ensures T.Inv(WithTx(core, r), db0, reqs + [r])
  {
    var tx := T.Tx(r, T.Fresh, T.NO_READ, T.NO_READ, map[], []);
    SerialExtends(db0, reqs, r, core.commits);
    ArrivalKeepsLocks(core.txs, core.locks, tx);
    ArrivalKeepsCommits(core.txs, core.commits, tx);
    assert T.TxOk(core.db, tx);
  }

  // ---------------------------------------------------------------------------
  // The two halves agree
  // ---------------------------------------------------------------------------

  /** A transaction of an attempt asks for that attempt's transfer, and is live until the attempt is served. */
  predicate OriginOk(pay: P.State, tx: T.Tx, o: Origin) {
    match o
    case OfOther => !P.IsPaymentRef(tx.req.ref)
    case OfAttempt(a) =>
      && a < |pay.attempts| && pay.attempts[a].pay in pay.db.terms
      && tx.req == P.TransferOf(pay.attempts[a].pay, pay.db.terms[pay.attempts[a].pay])
      && pay.attempts[a].sent && (T.Live(tx) ==> !pay.attempts[a].served)
  }

  ghost predicate Agree(y: System) {
    && y.pay.money == y.core.db
    && |y.origins| == |y.core.txs|
    && (forall t :: 0 <= t < |y.origins| ==> OriginOk(y.pay, y.core.txs[t], y.origins[t]))
    && (forall t, u :: 0 <= t < u < |y.origins| && y.origins[t].OfAttempt? ==> y.origins[t] != y.origins[u])
    && (forall n :: 0 <= n < |y.pay.attempts| && y.pay.attempts[n].served ==> Arrived(y.origins, n))
  }

  /** A database action changes the tables exactly when it commits a transfer, by that transfer's move. */
  ghost predicate MovesOrNot(core: T.State, t: nat, core': T.State)
    requires t < |core.txs|
  {
    && |core'.txs| == |core.txs| && core'.txs == core.txs[t := core'.txs[t]]
    && core'.txs[t].req == core.txs[t].req
    && (if core'.txs[t].pc.Committed? then
          Accepts(core.db, core.txs[t].req) && core'.db == Move(core.db, core.txs[t].req)
        else core'.db == core.db)
  }

  lemma StepMovesOrNot(core: T.State, t: nat)
    requires t < |core.txs| && T.Live(core.txs[t]) && T.TxOk(core.db, core.txs[t])
    requires t < |T.Step(core, t).txs| ==> T.Step(core, t).txs[t].req == core.txs[t].req
    ensures MovesOrNot(core, t, T.Step(core, t))
  {
    V.StepIsLocal(core, t);
    if core.txs[t].pc.Credited? {
      T.CommitIsMove(core, t);
    } else {
      OnlyCommitWrites(core, t);
      hide T.Step, T.TxOk;
    }
  }

  lemma ActionMovesOrNot(core: T.State, d: T.Action, db0: Db, reqs: seq<Request>)
    requires T.Inv(core, db0, reqs) && d.t < |core.txs| && T.Live(core.txs[d.t])
    ensures MovesOrNot(core, d.t, T.Apply(core, d))
  {
    if d.Exec? {
      assert T.TxOk(core.db, core.txs[d.t]) && core.txs[d.t].req == reqs[d.t];
      T.StepKeepsInv(core, d.t, db0, reqs);
      hide T.Step, T.TxOk;
      StepMovesOrNot(core, d.t);
    }
  }

  lemma OnlyCommitWrites(core: T.State, t: nat)
    requires t < |core.txs| && T.Live(core.txs[t]) && !core.txs[t].pc.Credited?
    ensures T.Step(core, t).db == core.db && !(t < |T.Step(core, t).txs| && T.Step(core, t).txs[t].pc.Committed?)
  {
    match core.txs[t].pc
    case Fresh =>
    case Begun =>
    case FirstLocked =>
    case BothLocked =>
    case SourceUpdated =>
    case DestUpdated =>
    case Debited =>
  }

  /** Steps of the protocol other than transfers leave the money and what has been sent and served alone. */
  ghost predicate KeepsRequests(s: P.State, s': P.State) {
    && s'.money == s.money
    && |s.attempts| <= |s'.attempts|
    && (forall id :: id in s.db.terms ==> id in s'.db.terms && s'.db.terms[id] == s.db.terms[id])
    && (forall n :: 0 <= n < |s.attempts| ==>
          && s'.attempts[n].pay == s.attempts[n].pay && s'.attempts[n].served == s.attempts[n].served
          && (s.attempts[n].sent ==> s'.attempts[n].sent))
    && (forall n :: |s.attempts| <= n < |s'.attempts| ==> !s'.attempts[n].served)
  }

  predicate KeepsRequest(b: P.Back, b': P.Back) {
    && b'.money == b.money && b'.att.pay == b.att.pay && b'.att.served == b.att.served
    && (b.att.sent ==> b'.att.sent)
  }

  lemma SagaStepKeepsRequest(b: P.Back, t: P.Terms)
    ensures KeepsRequest(b, P.NextOfSaga(b, t))
  {
    match b.att.phase
    case Rejecting =>
    case Calling =>
    case Waiting =>
    case Decided(_) =>
    case Caching(_) =>
    case Publishing(_) =>
    case Ended =>
  }

  lemma SagaFaultKeepsRequest(b: P.Back, t: P.Terms, applied: bool)
    ensures KeepsRequest(b, P.FaultOfSaga(b, t, applied))
  {
    hide P.Announce, P.Verdict;
    match b.att.phase
    case Rejecting =>
    case Calling =>
    case Waiting =>
    case Decided(_) =>
    case Caching(_) =>
    case Publishing(_) =>
    case Ended =>
  }

  lemma SagaKeepsRequest(b: P.Back, t: P.Terms, a: P.Action)
    requires P.OfSaga(a) && !a.Serve?
    ensures KeepsRequest(b, P.SagaAction(b, t, a))
  {
    SagaStepKeepsRequest(b, t);
    SagaFaultKeepsRequest(b, t, a.SagaFault? && a.applied);
    hide P.NextOfSaga, P.FaultOfSaga;
  }

  lemma CallKeepsTerms(s: P.State, a: P.Action)
    requires R.Rows(s) && P.OfCall(a) && a.c < |s.calls|
    ensures forall id :: id in s.db.terms ==>
              id in P.CallAction(s, a).db.terms && P.CallAction(s, a).db.terms[id] == s.db.terms[id]
  {
    var g := P.CallAction(s, a);
    assert R.CallOk(s.db.terms, s.calls[a.c]);
    assert g.db == s.db || (s.calls[a.c].pc.AtCommit? &&
                            g.db == P.Committed(s.db, s.calls[a.c].pc.pending, s.calls[a.c].pc.rows));
  }

  lemma SagaKeepsRequests(s: P.State, a: P.Action)
    requires P.OfSaga(a) && !a.Serve?
    ensures KeepsRequests(s, P.Apply(s, a))
  {
    if a.a < |s.attempts| && s.attempts[a.a].pay in s.db.terms {
      SagaKeepsRequest(P.BackOf(s, a.a), s.db.terms[s.attempts[a.a].pay], a);
      assert P.Apply(s, a) ==
             P.WithBack(s, a.a, P.SagaAction(P.BackOf(s, a.a), s.db.terms[s.attempts[a.a].pay], a));
    }
  }

  lemma OthersKeepRequests(s: P.State, a: P.Action)
    requires !P.OfCall(a) && !P.OfSaga(a) && !a.Foreign?
    ensures KeepsRequests(s, P.Apply(s, a))
  {
  }

  lemma ProtocolKeepsRequests(s: P.State, a: P.Action)
    requires R.Rows(s) && !a.Serve? && !a.Foreign?
    ensures KeepsRequests(s, P.Apply(s, a))
  {
    if P.OfCall(a) {
      if a.c < |s.calls| {
        CallKeepsTerms(s, a);
        assert P.Apply(s, a) == P.WithFront(s, a.c, P.CallAction(s, a));
      }
    } else if P.OfSaga(a) {
      SagaKeepsRequests(s, a);
    } else {
      OthersKeepRequests(s, a);
    }
  }

  lemma KeptRequestsAgree(y: System, pay: P.State)
    requires Agree(y) && KeepsRequests(y.pay, pay)
    ensures Agree(y.(pay := pay))
  {
    forall t | 0 <= t < |y.origins| ensures OriginOk(pay, y.core.txs[t], y.origins[t]) {
      assert OriginOk(y.pay, y.core.txs[t], y.origins[t]);
    }
  }

  lemma RunOne(s: P.State, a: P.Action)
    ensures P.Run(s, [a]) == P.Apply(s, a)
  {
    assert [a][1..] == [];
    assert P.Run(P.Apply(s, a), []) == P.Apply(s, a);
  }

  /** The protocol serves a request just as the transaction that ended has done. */
  lemma ServedAgrees(y: System, d: T.Action, db0: Db, reqs: seq<Request>, a: nat)
    requires Agree(y) && T.Inv(y.core, db0, reqs) && d.t < |y.origins| && y.origins[d.t] == OfAttempt(a)
    requires T.Live(y.core.txs[d.t])
    requires var core' := T.Apply(y.core, d); d.t < |core'.txs| && !T.Live(core'.txs[d.t])
    ensures var core' := T.Apply(y.core, d);
            var pay := P.Apply(y.pay, P.Serve(a, core'.txs[d.t].pc.Committed?));
            && pay.money == core'.db && pay.db == y.pay.db
            && a < |y.pay.attempts| && |pay.attempts| == |y.pay.attempts| && pay.attempts[a].served
            && pay.attempts == y.pay.attempts[a := pay.attempts[a]]
            && pay.attempts[a].pay == y.pay.attempts[a].pay && pay.attempts[a].sent
  {
    assert OriginOk(y.pay, y.core.txs[d.t], y.origins[d.t]);
    ActionMovesOrNot(y.core, d, db0, reqs);
  }

  lemma EndedAgree(y: System, d: T.Action, db0: Db, reqs: seq<Request>, pay: P.State)
    requires Agree(y) && T.Inv(y.core, db0, reqs) && d.t < |y.origins| && T.Live(y.core.txs[d.t])
    requires var core' := T.Apply(y.core, d);
             && d.t < |core'.txs| && !T.Live(core'.txs[d.t]) && pay.money == core'.db
    requires pay.db == y.pay.db && |pay.attempts| == |y.pay.attempts|
    requires match y.origins[d.t]
             case OfAttempt(a) =>
               && a < |pay.attempts| && pay.attempts == y.pay.attempts[a := pay.attempts[a]]
               && pay.attempts[a].pay == y.pay.attempts[a].pay && pay.attempts[a].sent && pay.attempts[a].served
             case OfOther => pay.attempts == y.pay.attempts
    ensures Agree(System(pay, T.Apply(y.core, d), y.origins))
  {
    ActionMovesOrNot(y.core, d, db0, reqs);
    var core' := T.Apply(y.core, d);
    forall t | 0 <= t < |y.origins| ensures OriginOk(pay, core'.txs[t], y.origins[t]) {
      assert OriginOk(y.pay, y.core.txs[t], y.origins[t]);
      assert t != d.t && y.origins[t].OfAttempt? ==> y.origins[t] != y.origins[d.t];
    }
    forall n | 0 <= n < |pay.attempts| && pay.attempts[n].served ensures Arrived(y.origins, n) {
      if y.origins[d.t] == OfAttempt(n) {
        assert OfAttempt(n) in y.origins;
      }
    }
  }

  lemma EndOfAttemptAgrees(y: System, d: T.Action, db0: Db, reqs: seq<Request>, a: nat)
    requires Agree(y) && T.Inv(y.core, db0, reqs) && d.t < |y.origins| && y.origins[d.t] == OfAttempt(a)
    requires T.Live(y.core.txs[d.t])
    requires var core' := T.Apply(y.core, d); d.t < |core'.txs| && !T.Live(core'.txs[d.t])
    ensures Agree(System(P.Apply(y.pay, P.Serve(a, T.Apply(y.core, d).txs[d.t].pc.Committed?)),
                         T.Apply(y.core, d), y.origins))
  {
    ServedAgrees(y, d, db0, reqs, a);
    EndedAgree(y, d, db0, reqs, P.Apply(y.pay, P.Serve(a, T.Apply(y.core, d).txs[d.t].pc.Committed?)));
  }

  lemma ForeignMoves(s: P.State, r: Request)
    requires !P.IsPaymentRef(r.ref)
    ensures P.Apply(s, P.Foreign(r)) == s.(money := MoveIfAccepted(s.money, r))
  {
  }

  lemma EndOfOtherAgrees(y: System, d: T.Action, db0: Db, reqs: seq<Request>)
    requires Agree(y) && T.Inv(y.core, db0, reqs) && d.t < |y.origins| && y.origins[d.t].OfOther?
    requires T.Live(y.core.txs[d.t])
    requires var core' := T.Apply(y.core, d); d.t < |core'.txs| && !T.Live(core'.txs[d.t])
    ensures var core' := T.Apply(y.core, d);
            var pay := if core'.txs[d.t].pc.Committed? then P.Apply(y.pay, P.Foreign(y.core.txs[d.t].req)) else y.pay;
            Agree(System(pay, core', y.origins))
  {
    assert OriginOk(y.pay, y.core.txs[d.t], y.origins[d.t]);
    ActionMovesOrNot(y.core, d, db0, reqs);
    if T.Apply(y.core, d).txs[d.t].pc.Committed? {
      ForeignMoves(y.pay, y.core.txs[d.t].req);
      EndedAgree(y, d, db0, reqs, P.Apply(y.pay, P.Foreign(y.core.txs[d.t].req)));
    } else {
      EndedAgree(y, d, db0, reqs, y.pay);
    }
  }

  lemma DatabaseAgrees(y: System, d: T.Action, db0: Db, reqs: seq<Request>)
    requires Agree(y) && T.Inv(y.core, db0, reqs)
    ensures Agree(System(P.Run(y.pay, Seen(y, d)), T.Apply(y.core, d), y.origins))
  {
    var core' := T.Apply(y.core, d);
    if d.t < |y.core.txs| && T.Live(y.core.txs[d.t]) {
      ActionMovesOrNot(y.core, d, db0, reqs);
      if T.Live(core'.txs[d.t]) {
        StillLiveAgrees(y, d, db0, reqs);
      } else if y.origins[d.t].OfAttempt? {
        EndOfAttemptAgrees(y, d, db0, reqs, y.origins[d.t].a);
        RunOne(y.pay, P.Serve(y.origins[d.t].a, core'.txs[d.t].pc.Committed?));
      } else {
        EndOfOtherAgrees(y, d, db0, reqs);
        RunOne(y.pay, P.Foreign(y.core.txs[d.t].req));
      }
    } else {
      EndedDoNothing(y.core, d);
    }
  }

  lemma EndedDoNothing(core: T.State, d: T.Action)
    requires d.t < |core.txs| ==> !T.Live(core.txs[d.t])
    ensures T.Apply(core, d) == core
  {
  }

  lemma StillLiveAgrees(y: System, d: T.Action, db0: Db, reqs: seq<Request>)
    requires Agree(y) && T.Inv(y.core, db0, reqs) && d.t < |y.core.txs| && T.Live(y.core.txs[d.t])
    requires var core' := T.Apply(y.core, d); d.t < |core'.txs| && T.Live(core'.txs[d.t])
    ensures Agree(System(y.pay, T.Apply(y.core, d), y.origins))
  {
    ActionMovesOrNot(y.core, d, db0, reqs);
    var core' := T.Apply(y.core, d);
    forall t | 0 <= t < |y.origins| ensures OriginOk(y.pay, core'.txs[t], y.origins[t]) {
      assert OriginOk(y.pay, y.core.txs[t], y.origins[t]);
    }
  }

  lemma ArrivalAgrees(y: System, r: Request, o: Origin)
    requires Agree(y) && o !in (if o.OfAttempt? then y.origins else [])
    requires OriginOk(y.pay, T.Tx(r, T.Fresh, T.NO_READ, T.NO_READ, map[], []), o)
    ensures Agree(y.(core := WithTx(y.core, r), origins := y.origins + [o]))
  {
    var y' := y.(core := WithTx(y.core, r), origins := y.origins + [o]);
    forall t | 0 <= t < |y'.origins| ensures OriginOk(y'.pay, y'.core.txs[t], y'.origins[t]) {
      if t < |y.origins| {
        assert OriginOk(y.pay, y.core.txs[t], y.origins[t]);
      }
    }
  }

  /** The whole system's invariant; `reqs` lists the requests that have arrived. */
  ghost predicate Inv(y: System, db0: Db, reqs: seq<Request>) {
    R.Rows(y.pay) && Agree(y) && T.Inv(y.core, db0, reqs)
  }

  lemma StepKeepsInv(y: System, a: Action, db0: Db, reqs: seq<Request>) returns (reqs': seq<Request>)
    requires Inv(y, db0, reqs)
    ensures Inv(Step(y, a), db0, reqs') && Step(y, a).pay == P.Run(y.pay, Visible(y, a))
  {
    reqs' := reqs;
    R.RunKeepsRows(y.pay, Visible(y, a));
    match a
    case Protocol(p) =>
      if !p.Serve? && !p.Foreign? {
        RunOne(y.pay, p);
        ProtocolKeepsRequests(y.pay, p);
        KeptRequestsAgree(y, P.Apply(y.pay, p));
      }
    case ArriveFrom(n) =>
      if Step(y, a) != y {
        var att := y.pay.attempts[n];
        var r := P.TransferOf(att.pay, y.pay.db.terms[att.pay]);
        ArrivalAgrees(y, r, OfAttempt(n));
        ArrivalKeepsInv(y.core, r, db0, reqs);
        reqs' := reqs + [r];
      }
    case ArriveOther(r) =>
      if !P.IsPaymentRef(r.ref) {
        ArrivalAgrees(y, r, OfOther);
        ArrivalKeepsInv(y.core, r, db0, reqs);
        reqs' := reqs + [r];
      }
    case Database(d) =>
      DatabaseAgrees(y, d, db0, reqs);
      T.ApplyKeepsInv(y.core, d, db0, reqs);
  }

  lemma {:induction false} RunProjects(y: System, acts: seq<Action>, db0: Db, reqs: seq<Request>) returns (reqs': seq<Request>)
    requires Inv(y, db0, reqs)
    ensures Inv(Run(y, acts), db0, reqs') && Run(y, acts).pay == P.Run(y.pay, Projection(y, acts))
    decreases |acts|
  {
    if acts == [] {
      reqs' := reqs;
    } else {
      var mid := StepKeepsInv(y, acts[0], db0, reqs);
      reqs' := RunProjects(Step(y, acts[0]), acts[1..], db0, mid);
      P.RunAppend(y.pay, Visible(y, acts[0]), Projection(Step(y, acts[0]), acts[1..]));
    }
  }

  /**
   Refinement.  Every run of the whole system, with any number of transfers
   interleaving in the account service, looks to the payment protocol like a
   run in which each transfer is one indivisible step; the two halves agree on
   the accounts and the ledger, and the account service's half is serializable:
   its tables are those of the committed transactions' requests, in commit order.
   */
  lemma TransfersLookAtomic(requests: seq<P.Terms>, workers: nat, money: Db, acts: seq<Action>)
      returns (reqs: seq<Request>)
    ensures var y := Run(Init(requests, workers, money), acts);
            && y.pay == P.Run(P.Init(requests, workers, money), Projection(Init(requests, workers, money), acts))
            && y.pay.money == y.core.db
            && |reqs| == |y.core.txs| && (forall t :: 0 <= t < |reqs| ==> y.core.txs[t].req == reqs[t])
            && T.CommitsOk(y.core.txs, y.core.commits)
            && AllAccepted(money, reqs, y.core.commits) && y.core.db == Serial(money, reqs, y.core.commits)
  {
    reqs := RunProjects(Init(requests, workers, money), acts, money, []);
  }

  /**
   So the whole system conserves money, keeps every SUCCESS payment backed by
   its pair of entries, and books at most one pair per payment plus one per
   attempt that moved money without recording a status.
   */
  lemma WholeSystemKeepsTheBooks(requests: seq<P.Terms>, workers: nat, money: Db, acts: seq<Action>, id: P.PayId)
    requires S.NoPaymentsBooked(money) && L.Agrees(money) && L.Solvent(money) && P.IsPaymentRef(id)
    ensures var y := Run(Init(requests, workers, money), acts);
            && L.Conserved(money, y.core.db) && L.Agrees(y.core.db) && L.Solvent(y.core.db)
            && |S.MissingInLedger(y.pay.db, y.core.db.ledger)| == 0
            && L.RefCount(y.core.db.ledger, id) == 2 * S.Tally(y.pay.attempts, id, false)
            && S.Tally(y.pay.attempts, id, false) <= 1 + S.Tally(y.pay.attempts, id, true)
  {
    var reqs := TransfersLookAtomic(requests, workers, money, acts);
    var y := Run(Init(requests, workers, money), acts);
    var seen := Projection(Init(requests, workers, money), acts);
    S.OncePerPaymentPlusUnrecorded(requests, workers, money, seen, id);
    S.SuccessMeansMoved(requests, workers, money, seen);
    L.SerialConserves(money, reqs, y.core.commits);
    forall x | x in y.core.db.rows ensures y.core.db.rows[x].balance == L.LedgerSum(y.core.db.ledger, x) {
      assert x in money.rows;
    }
  }
}
