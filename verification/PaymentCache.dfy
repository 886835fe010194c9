/**
 What the idempotency records in Redis say about the payments table.
 */
module PaymentCache {
  import opened Accounts
  import opened Payments
  import opened PaymentRows
  import opened PaymentSaga

  /** The row of `p` has held p's status: PENDING, as all rows once were (EveryRowWasPending), or the current one. */
  predicate HasHeld(status: map<PayId, Status>, p: Payment) {
    p.id in status && (p.status == PENDING || p.status == status[p.id])
  }

  predicate AnswerTrue(status: map<PayId, Status>, call: Call) {
    && (call.pc.AtComplete? ==> HasHeld(status, call.pc.answer))
    && (call.pc.Done? && call.pc.outcome.Returned? ==> HasHeld(status, call.pc.outcome.payment))
  }

  ghost predicate RecordsTrue(status: map<PayId, Status>, redis: map<Key, Record>) {
    forall k :: k in redis && redis[k].Completed? ==> HasHeld(status, redis[k].payment)
  }

  ghost predicate Truthful(status: map<PayId, Status>, redis: map<Key, Record>, calls: seq<Call>) {
    RecordsTrue(status, redis) && forall c :: 0 <= c < |calls| ==> AnswerTrue(status, calls[c])
  }

  lemma EvolvedStaysTruthful(before: map<PayId, Status>, after: map<PayId, Status>, redis: map<Key, Record>, calls: seq<Call>)
    requires Truthful(before, redis, calls) && Evolves(before, after)
    ensures Truthful(after, redis, calls)
  {
    forall c | 0 <= c < |calls| ensures AnswerTrue(after, calls[c]) {
      assert AnswerTrue(before, calls[c]);
    }
  }

  lemma NewRecordsStayTruthful(status: map<PayId, Status>, before: map<Key, Record>, after: map<Key, Record>, calls: seq<Call>)
    requires Truthful(status, before, calls) && RecordsTrue(status, after)
    ensures Truthful(status, after, calls)
  {
  }

  /** What one call's step has to keep. */
  ghost predicate FrontTrue(f: Front) {
    AnswerTrue(f.db.status, f.call) && RecordsTrue(f.db.status, f.redis)
  }

  lemma NextStaysTrue(f: Front, c: nat, id: PayId, now: int, blocked: bool)
    requires FrontTrue(f) && CallOk(f.db.terms, f.call) && f.db.terms.Keys == f.db.status.Keys
    ensures var g := NextOfCall(f, c, id, now, blocked); FrontTrue(g)
  {
    match f.call.pc
    case Fresh =>
    case AtSetNX =>
    case AtGet =>
    case AtDbCheck =>
    case AtInsert =>
    case AtOutbox(_) =>
    case AtCommit(_, _) =>
    case AtComplete(_) =>
    case AtRelease(_) =>
    case Done(_) =>
  }

  lemma FaultStaysTrue(f: Front, c: nat, applied: bool)
    requires FrontTrue(f) && CallOk(f.db.terms, f.call) && f.db.terms.Keys == f.db.status.Keys
    ensures var g := RedisFaultOfCall(f, c, applied); FrontTrue(g)
    ensures var g := DbFaultOfCall(f, applied); FrontTrue(g)
  {
    match f.call.pc
    case Fresh =>
    case AtSetNX =>
    case AtGet =>
    case AtDbCheck =>
    case AtInsert =>
    case AtOutbox(_) =>
    case AtCommit(_, _) =>
    case AtComplete(_) =>
    case AtRelease(_) =>
    case Done(_) =>
  }

  lemma CallActionStaysTrue(s: State, a: Action)
    requires OfCall(a) && a.c < |s.calls| && FrontTrue(FrontOf(s, a.c))
    requires CallOk(s.db.terms, s.calls[a.c]) && s.db.terms.Keys == s.db.status.Keys
    ensures FrontTrue(CallAction(s, a))
  {
    var f := FrontOf(s, a.c);
    match a {
      case CallStep(c, id, now) => NextStaysTrue(f, c, id, now, InsertBlocked(s, c, id));
      case CallRedisFault(c, applied) => FaultStaysTrue(f, c, applied);
      case CallDbFault(c, applied) => FaultStaysTrue(f, c, applied);
      case CallCrash(_) =>
    }
  }

  lemma CallKeepsTruth(s: State, c: nat, g: Front)
    requires Truthful(s.db.status, s.redis, s.calls) && c < |s.calls|
    requires FrontTrue(g) && Evolves(s.db.status, g.db.status)
    ensures Truthful(g.db.status, g.redis, s.calls[c := g.call])
  {
    EvolvedStaysTruthful(s.db.status, g.db.status, s.redis, s.calls);
  }

  lemma AttemptWritesTruth(terms: map<PayId, Terms>, b: Back, a: Action)
    requires OfSaga(a) && Consistent(b.status, b.att) && AttemptOk(terms, b.att) && RecordsTrue(b.status, b.redis)
    ensures RecordsTrue(SagaAction(b, terms[b.att.pay], a).status, SagaAction(b, terms[b.att.pay], a).redis)
  {
    var b' := SagaAction(b, terms[b.att.pay], a);
    AttemptEvolves(b, terms[b.att.pay], a);
    if b.att.phase.Caching? {
      assert b'.status == b.status && HasHeld(b.status, b.att.phase.settled);
    } else {
      assert b'.redis == b.redis;
    }
  }

  lemma CallActionKeepsTruth(s: State, a: Action)
    requires Rows(s) && Saga(s) && Truthful(s.db.status, s.redis, s.calls)
    requires OfCall(a) && a.c < |s.calls|
    ensures var s' := WithFront(s, a.c, CallAction(s, a)); Truthful(s'.db.status, s'.redis, s'.calls)
  {
    assert CallOk(s.db.terms, s.calls[a.c]) && AnswerTrue(s.db.status, s.calls[a.c]);
    hide CallAction;
    FrontEvolves(s, a);
    CallActionStaysTrue(s, a);
    CallKeepsTruth(s, a.c, CallAction(s, a));
  }

  lemma SagaActionKeepsTruth(terms: map<PayId, Terms>, b: Back, calls: seq<Call>, a: Action)
    requires Truthful(b.status, b.redis, calls) && OfSaga(a)
    requires Consistent(b.status, b.att) && AttemptOk(terms, b.att)
    ensures var b' := SagaAction(b, terms[b.att.pay], a); Truthful(b'.status, b'.redis, calls)
  {
    AttemptEvolves(b, terms[b.att.pay], a);
    AttemptWritesTruth(terms, b, a);
    hide SagaAction, Evolves, Consistent, AttemptOk;
    var b' := SagaAction(b, terms[b.att.pay], a);
    EvolvedStaysTruthful(b.status, b'.status, b.redis, calls);
    NewRecordsStayTruthful(b'.status, b.redis, b'.redis, calls);
  }

  lemma AttemptKeepsTruth(s: State, a: Action)
    requires AttemptsOk(s.db.terms, s.attempts) && SettledOnce(s.db.status, s.attempts) && OfSaga(a)
    requires Truthful(s.db.status, s.redis, s.calls)
    ensures var s' := ApplySaga(s, a); Truthful(s'.db.status, s'.redis, s'.calls)
  {
    hide SagaAction, Truthful;
    if a.a < |s.attempts| && s.attempts[a.a].pay in s.db.terms {
      assert Consistent(s.db.status, s.attempts[a.a]) && AttemptOk(s.db.terms, s.attempts[a.a]);
      hide Consistent, AttemptOk, AttemptsOk, SettledOnce;
      SagaActionKeepsTruth(s.db.terms, BackOf(s, a.a), s.calls, a);
    }
  }

  lemma OthersKeepTruth(s: State, a: Action)
    requires !OfCall(a) && !OfSaga(a) && Truthful(s.db.status, s.redis, s.calls)
    ensures var s' := Apply(s, a); Truthful(s'.db.status, s'.redis, s'.calls)
  {
    hide WorkerAction;
  }

  lemma ApplyKeepsTruth(s: State, a: Action)
    requires Rows(s) && Saga(s) && Truthful(s.db.status, s.redis, s.calls)
    ensures var s' := Apply(s, a); Truthful(s'.db.status, s'.redis, s'.calls)
  {
    hide CallAction, ApplySaga, ApplyWorker, ApplyOther, Truthful;
    hide TableOk, OutboxOk, CallsOk, RecordsOk, AttemptsOk, SettledOnce, AnnouncedOk, LedgerOk;
    if OfCall(a) {
      if a.c < |s.calls| {
        CallActionKeepsTruth(s, a);
      }
    } else if OfSaga(a) {
      AttemptKeepsTruth(s, a);
    } else {
      OthersKeepTruth(s, a);
    }
  }

  lemma {:induction false} RunKeepsTruth(s: State, acts: seq<Action>)
    requires Rows(s) && Saga(s) && Truthful(s.db.status, s.redis, s.calls)
    ensures var s' := Run(s, acts); Truthful(s'.db.status, s'.redis, s'.calls)
    decreases |acts|
  {
    if acts != [] {
      ApplyKeepsRows(s, acts[0]);
      ApplyKeepsSaga(s, acts[0]);
      ApplyKeepsTruth(s, acts[0]);
      RunKeepsTruth(Apply(s, acts[0]), acts[1..]);
    }
  }

  /** After some part of the run the row of `p` had p's status. */
  ghost predicate HeldIn(s0: State, acts: seq<Action>, p: Payment) {
    exists n :: 0 <= n <= |acts| && p.id in Run(s0, acts[..n]).db.status && Run(s0, acts[..n]).db.status[p.id] == p.status
  }

  /** A row that an action adds is PENDING. */
  lemma NewRowsArePending(s: State, a: Action, id: PayId)
    requires Rows(s) && id !in s.db.status && id in Apply(s, a).db.status
    ensures Apply(s, a).db.status[id] == PENDING
  {
    hide ApplyCall, ApplySaga, ApplyWorker, ApplyOther, TableOk, OutboxOk, CallsOk, RecordsOk;
    if OfCall(a) {
      CallAddsPending(s, a, id);
    } else if OfSaga(a) {
      AttemptsAddNoRows(s, a);
    } else {
      OthersAddNoRows(s, a);
    }
  }

  lemma CallAddsPending(s: State, a: Action, id: PayId)
    requires CallsOk(s.db, s.calls) && OfCall(a) && id !in s.db.status && id in ApplyCall(s, a).db.status
    ensures ApplyCall(s, a).db.status[id] == PENDING
  {
    hide CallAction;
    assert CallOk(s.db.terms, s.calls[a.c]);
    CallWritesTables(s, a);
  }

  lemma AttemptsAddNoRows(s: State, a: Action)
    requires TableOk(s.db) && AttemptsOk(s.db.terms, s.attempts) && OfSaga(a)
    ensures ApplySaga(s, a).db.status.Keys == s.db.status.Keys
  {
    hide SagaAction;
    if a.a < |s.attempts| && s.attempts[a.a].pay in s.db.terms {
      assert AttemptOk(s.db.terms, s.attempts[a.a]);
      AttemptStaysOk(s.db.terms, BackOf(s, a.a), a);
    }
  }

  lemma OthersAddNoRows(s: State, a: Action)
    requires !OfCall(a) && !OfSaga(a)
    ensures Apply(s, a).db.status == s.db.status
  {
    hide WorkerAction;
  }

  /** Every row was PENDING at some time. */
  lemma {:induction false} EveryRowWasPending(requests: seq<Terms>, workers: nat, money: Db, acts: seq<Action>, p: Payment)
    requires p.id in Run(Init(requests, workers, money), acts).db.status && p.status == PENDING
    ensures HeldIn(Init(requests, workers, money), acts, p)
    decreases |acts|
  {
    var s0 := Init(requests, workers, money);
    if acts != [] {
      var m := |acts| - 1;
      var before := acts[..m];
      assert acts == before + [acts[m]];
      Then(s0, before, acts[m]);
      if p.id in Run(s0, before).db.status {
        EveryRowWasPending(requests, workers, money, before, p);
        hide Run, Apply;
        var n :| 0 <= n <= m && p.id in Run(s0, before[..n]).db.status && Run(s0, before[..n]).db.status[p.id] == p.status;
        assert before[..n] == acts[..n];
      } else {
        RunKeepsRows(s0, before);
        NewRowsArePending(Run(s0, before), acts[m], p.id);
        hide Run, Apply;
        assert acts[..|acts|] == acts;
      }
    }
  }

  lemma HasHeldMeansHeld(requests: seq<Terms>, workers: nat, money: Db, acts: seq<Action>, p: Payment)
    requires HasHeld(Run(Init(requests, workers, money), acts).db.status, p)
    ensures HeldIn(Init(requests, workers, money), acts, p)
  {
    if p.status == PENDING {
      EveryRowWasPending(requests, workers, money, acts, p);
    } else {
      hide Run, Init;
      assert acts[..|acts|] == acts;
    }
  }

  /**
   Cache agreement.  Whenever the record of a key is COMPLETED, the payment it
   stores has the id and the immutable fields of the row with that key, and a
   status which that row has held at some time of the run; the same goes for every
   payment returned.
   */
  lemma CompletedRecordsAgree(requests: seq<Terms>, workers: nat, money: Db, acts: seq<Action>)
    requires NoPaymentsBooked(money)
    ensures var s0 := Init(requests, workers, money);
            var s := Run(s0, acts);
            && TableOk(s.db)
            && (forall k :: k in s.redis && s.redis[k].Completed? ==>
                  var p := s.redis[k].payment;
                  k in s.db.index && s.db.index[k] == p.id && s.db.terms[p.id] == p.terms && HeldIn(s0, acts, p))
            && (forall c, p :: 0 <= c < |s.calls| && s.calls[c].pc == Done(Returned(p)) ==>
                  Genuine(s.db.terms, p) && HeldIn(s0, acts, p))
  {
    var s0 := Init(requests, workers, money);
    var s := Run(s0, acts);
    Reachable(requests, workers, money, acts);
    Reachable(requests, workers, money, []);
    RunKeepsTruth(s0, acts);
    hide Run, Init, HeldIn, Saga, TableOk, OutboxOk, CallsOk, RecordsOk, AttemptsOk, Truthful;
    RecordsAgree(requests, workers, money, acts, s);
    AnswersAgree(requests, workers, money, acts, s);
  }

  lemma RecordsAgree(requests: seq<Terms>, workers: nat, money: Db, acts: seq<Action>, s: State)
    requires s == Run(Init(requests, workers, money), acts)
    requires TableOk(s.db) && RecordsOk(s.db.terms, s.redis) && Truthful(s.db.status, s.redis, s.calls)
    ensures forall k :: k in s.redis && s.redis[k].Completed? ==>
              var p := s.redis[k].payment;
              k in s.db.index && s.db.index[k] == p.id && p.id in s.db.terms && s.db.terms[p.id] == p.terms
              && HeldIn(Init(requests, workers, money), acts, p)
  {
    hide Run, Init, HeldIn, TableOk, RecordsOk;
    forall k | k in s.redis && s.redis[k].Completed?
      ensures var p := s.redis[k].payment;
              k in s.db.index && s.db.index[k] == p.id && p.id in s.db.terms && s.db.terms[p.id] == p.terms
              && HeldIn(Init(requests, workers, money), acts, p)
    {
      CompletedIsRow(s, k);
      HasHeldMeansHeld(requests, workers, money, acts, s.redis[k].payment);
    }
  }

  lemma AnswersAgree(requests: seq<Terms>, workers: nat, money: Db, acts: seq<Action>, s: State)
    requires s == Run(Init(requests, workers, money), acts)
    requires CallsOk(s.db, s.calls) && Truthful(s.db.status, s.redis, s.calls)
    ensures forall c, p :: 0 <= c < |s.calls| && s.calls[c].pc == Done(Returned(p)) ==>
              Genuine(s.db.terms, p) && HeldIn(Init(requests, workers, money), acts, p)
  {
    hide Run, Init, HeldIn, CallsOk;
    forall c, p | 0 <= c < |s.calls| && s.calls[c].pc == Done(Returned(p))
      ensures Genuine(s.db.terms, p) && HeldIn(Init(requests, workers, money), acts, p)
    {
      ReturnedIsRow(s, c, p);
      HasHeldMeansHeld(requests, workers, money, acts, p);
    }
  }

  lemma CompletedIsRow(s: State, k: Key)
    requires TableOk(s.db) && RecordsOk(s.db.terms, s.redis) && RecordsTrue(s.db.status, s.redis)
    requires k in s.redis && s.redis[k].Completed?
    ensures var p := s.redis[k].payment;
            k in s.db.index && s.db.index[k] == p.id && p.id in s.db.terms && s.db.terms[p.id] == p.terms
            && HasHeld(s.db.status, p)
  {
  }

  lemma ReturnedIsRow(s: State, c: nat, p: Payment)
    requires CallsOk(s.db, s.calls) && Truthful(s.db.status, s.redis, s.calls)
    requires c < |s.calls| && s.calls[c].pc == Done(Returned(p))
    ensures Genuine(s.db.terms, p) && HasHeld(s.db.status, p)
  {
    assert CallOk(s.db.terms, s.calls[c]) && AnswerTrue(s.db.status, s.calls[c]);
  }

  // ---------------------------------------------------------------------------
  // When the cached status is the right one
  // ---------------------------------------------------------------------------

  predicate SaysPending(redis: map<Key, Record>, k: Key) {
    k in redis && redis[k].Completed? && redis[k].payment.status == PENDING
  }

  /** The call is about to cache PENDING for the key. */
  predicate LateWriter(call: Call, k: Key) {
    call.pc.AtComplete? && call.terms.key == k && call.pc.answer.status == PENDING
  }

  predicate SomeLateWriter(calls: seq<Call>, k: Key) {
    exists c :: 0 <= c < |calls| && LateWriter(calls[c], k)
  }

  /** The payment of key `k` is settled, and nobody says otherwise. */
  ghost predicate Final(s: State, id: PayId, k: Key) {
    && id in s.db.terms && s.db.terms[id].key == k && id in s.db.status && s.db.status[id] != PENDING
    && !SaysPending(s.redis, k) && !SomeLateWriter(s.calls, k)
  }

  lemma CallKeepsFinal(s: State, a: Action, k: Key)
    requires OfCall(a) && a.c < |s.calls| && CallOk(s.db.terms, s.calls[a.c])
    requires Inserting(s.calls[a.c]) ==> s.calls[a.c].terms.key !in s.db.index
    requires k in s.db.index && s.db.index[k] in s.db.status && s.db.status[s.db.index[k]] != PENDING
    requires s.db.index[k] in s.db.terms && !SaysPending(s.redis, k) && !LateWriter(s.calls[a.c], k)
    ensures var g := CallAction(s, a); !SaysPending(g.redis, k) && !LateWriter(g.call, k)
  {
    match s.calls[a.c].pc
    case Fresh =>
    case AtSetNX =>
    case AtGet =>
    case AtDbCheck =>
    case AtInsert =>
    case AtOutbox(_) =>
    case AtCommit(_, _) =>
    case AtComplete(_) =>
    case AtRelease(_) =>
    case Done(_) =>
  }

  lemma AttemptKeepsFinal(db: Tables, b: Back, a: Action, id: PayId, k: Key)
    requires TableOk(db) && OfSaga(a) && db.status == b.status && b.att.pay in db.terms && Consistent(b.status, b.att)
    requires id in db.terms && db.terms[id].key == k && db.status[id] != PENDING && !SaysPending(b.redis, k)
    ensures !SaysPending(SagaAction(b, db.terms[b.att.pay], a).redis, k)
  {
    assert db.terms[b.att.pay].key == k ==> b.att.pay == id;
    SagaWritesOneRecord(b, db.terms[b.att.pay], a);
    hide SagaAction, TableOk;
  }

  lemma OthersKeepTerms(s: State, a: Action)
    requires !OfCall(a)
    ensures Apply(s, a).db.terms == s.db.terms
  {
    hide WorkerAction, SagaAction;
  }

  /** The immutable columns stay. */
  lemma TermsStay(s: State, a: Action, id: PayId)
    requires CallsOk(s.db, s.calls) && id in s.db.terms
    ensures id in Apply(s, a).db.terms && Apply(s, a).db.terms[id] == s.db.terms[id]
  {
    hide CallAction, ApplyWorker, ApplySaga, ApplyOther;
    if OfCall(a) {
      if a.c < |s.calls| {
        assert CallOk(s.db.terms, s.calls[a.c]);
        CallWritesTables(s, a);
      }
    } else {
      OthersKeepTerms(s, a);
    }
  }

  /** A settled payment's cache stays as quiet as it is, whatever a call, an attempt or anybody else does. */
  lemma CallKeepsQuiet(s: State, a: Action, id: PayId, k: Key)
    requires TableOk(s.db) && CallsOk(s.db, s.calls) && Final(s, id, k) && OfCall(a)
    ensures var s' := ApplyCall(s, a); !SaysPending(s'.redis, k) && !SomeLateWriter(s'.calls, k)
  {
    hide CallAction;
    if a.c < |s.calls| {
      assert CallOk(s.db.terms, s.calls[a.c]) && !LateWriter(s.calls[a.c], k);
      assert k in s.db.index && s.db.index[k] == id;
      CallKeepsFinal(s, a, k);
      hide TableOk, CallsOk, SaysPending;
      var calls' := s.calls[a.c := CallAction(s, a).call];
      forall c | 0 <= c < |calls'| ensures !LateWriter(calls'[c], k) {
        assert c != a.c ==> !LateWriter(s.calls[c], k);
      }
    }
  }

  lemma AttemptKeepsQuiet(s: State, a: Action, id: PayId, k: Key)
    requires TableOk(s.db) && Final(s, id, k) && OfSaga(a)
    requires a.a < |s.attempts| ==> Consistent(s.db.status, s.attempts[a.a])
    ensures var s' := ApplySaga(s, a); !SaysPending(s'.redis, k) && !SomeLateWriter(s'.calls, k)
  {
    hide SagaAction, SaysPending, SomeLateWriter, Consistent, TableOk;
    if a.a < |s.attempts| && s.attempts[a.a].pay in s.db.terms {
      AttemptKeepsFinal(s.db, BackOf(s, a.a), a, id, k);
    }
  }

  lemma OthersKeepQuiet(s: State, a: Action, id: PayId, k: Key)
    requires Final(s, id, k) && !OfCall(a) && !OfSaga(a)
    ensures var s' := Apply(s, a); !SaysPending(s'.redis, k) && !SomeLateWriter(s'.calls, k)
  {
    hide WorkerAction;
  }

  lemma ApplyKeepsQuiet(s: State, a: Action, id: PayId, k: Key)
    requires Rows(s) && Saga(s) && Final(s, id, k)
    ensures !SaysPending(Apply(s, a).redis, k) && !SomeLateWriter(Apply(s, a).calls, k)
  {
    hide ApplyCall, ApplyWorker, ApplySaga, ApplyOther, Final, SaysPending, SomeLateWriter;
    hide TableOk, OutboxOk, CallsOk, RecordsOk, AttemptsOk, AnnouncedOk, LedgerOk, Consistent;
    if OfCall(a) {
      CallKeepsQuiet(s, a, id, k);
    } else if OfSaga(a) {
      AttemptKeepsQuiet(s, a, id, k);
    } else {
      OthersKeepQuiet(s, a, id, k);
    }
  }

  lemma {:induction false} RunKeepsFinal(s: State, acts: seq<Action>, id: PayId, k: Key)
    requires Rows(s) && Saga(s) && Final(s, id, k)
    ensures Final(Run(s, acts), id, k)
    decreases |acts|
  {
    if acts != [] {
      var s' := Apply(s, acts[0]);
      ApplyKeepsRows(s, acts[0]);
      ApplyKeepsSaga(s, acts[0]);
      ApplyKeepsQuiet(s, acts[0], id, k);
      TermsStay(s, acts[0], id);
      ApplyEvolves(s, acts[0]);
      hide Apply, Rows, Saga;
      RunKeepsFinal(s', acts[1..], id, k);
    }
  }

  /**
   Exactly when the cached status of a settled payment falls back to PENDING: some
   continuation of the run does it if and only if a call is about to cache the
   PENDING payment it created or read before the payment was settled.
   */
  lemma PendingComesBack(s: State, id: PayId)
    requires Rows(s) && Saga(s) && id in s.db.terms && id in s.db.status && s.db.status[id] != PENDING
    requires !SaysPending(s.redis, s.db.terms[id].key)
    ensures var k := s.db.terms[id].key;
            (exists acts :: SaysPending(Run(s, acts).redis, k)) <==> SomeLateWriter(s.calls, k)
  {
    var k := s.db.terms[id].key;
    hide Rows, Saga;
    if SomeLateWriter(s.calls, k) {
      var a := LateWriterWrites(s, k);
      assert SaysPending(Run(s, [a]).redis, k);
    } else {
      forall acts ensures !SaysPending(Run(s, acts).redis, k) {
        RunKeepsFinal(s, acts, id, k);
      }
    }
  }

  lemma LateWriterWrites(s: State, k: Key) returns (a: Action)
    requires SomeLateWriter(s.calls, k)
    ensures SaysPending(Run(s, [a]).redis, k)
  {
    var c :| 0 <= c < |s.calls| && LateWriter(s.calls[c], k);
    a := CallStep(c, "", 0);
    CompleteStores(s, c, 0);
    Then(s, [], a);
    hide Apply;
    assert [] + [a] == [a];
  }

  /** Without such a call the cache is right from then on: no record, a reservation, or the payment as stored. */
  lemma QuietCacheIsRight(s: State, acts: seq<Action>, id: PayId)
    requires Rows(s) && Saga(s) && Truthful(s.db.status, s.redis, s.calls)
    requires id in s.db.terms && Final(s, id, s.db.terms[id].key)
    ensures var k, s' := s.db.terms[id].key, Run(s, acts);
            k in s'.redis && s'.redis[k].Completed? ==>
              id in s'.db.terms && id in s'.db.status && s'.redis[k].payment == Row(s'.db, id)
  {
    var k, s' := s.db.terms[id].key, Run(s, acts);
    RunKeepsFinal(s, acts, id, k);
    RunKeepsSaga(s, acts);
    RunKeepsTruth(s, acts);
    hide Run, Saga;
    if k in s'.redis && s'.redis[k].Completed? {
      var p := s'.redis[k].payment;
      assert Genuine(s'.db.terms, p) && p.terms.key == k && HasHeld(s'.db.status, p);
      assert p.id == id;
    }
  }

  lemma CompleteStores(s: State, c: nat, now: int)
    requires c < |s.calls| && s.calls[c].pc.AtComplete?
    ensures var s' := Apply(s, CallStep(c, "", now));
            && s'.db == s.db && s'.redis == s.redis[s.calls[c].terms.key := Completed(s.calls[c].pc.answer)]
            && |s'.calls| == |s.calls| && forall d :: 0 <= d < |s.calls| && d != c ==> s'.calls[d] == s.calls[d]
  {
  }
}
