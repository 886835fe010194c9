/**
 What every run keeps about the payments and outbox tables: one row per
 idempotency key, one matching outbox row per payment, and only answers that
 name the payment of their key.
 */
module PaymentRows {
  import opened Accounts
  import opened Payments

  ghost predicate TableOk(db: Tables) {
    && db.terms.Keys == db.status.Keys
    && (forall k :: k in db.index ==> db.index[k] in db.terms && db.terms[db.index[k]].key == k)
    && (forall id :: id in db.terms ==>
          IsPaymentRef(id) && Valid(db.terms[id]) && db.terms[id].key in db.index && db.index[db.terms[id].key] == id)
  }

  predicate HasRow(outbox: seq<OutboxRow>, id: PayId) {
    exists i :: 0 <= i < |outbox| && outbox[i].aggregate == id
  }

  /** Exactly one outbox row per payment, with the payment's own fields. */
  ghost predicate OutboxOk(terms: map<PayId, Terms>, outbox: seq<OutboxRow>) {
    && (forall i :: 0 <= i < |outbox| ==>
          && outbox[i].aggregate in terms
          && outbox[i].payload == Created(outbox[i].aggregate, terms[outbox[i].aggregate], PENDING))
    && (forall i, j :: 0 <= i < j < |outbox| ==> outbox[i].aggregate != outbox[j].aggregate)
    && (forall id :: id in terms ==> HasRow(outbox, id))
  }

  /** `p` carries the id and the immutable columns of a committed payment. */
  predicate Genuine(terms: map<PayId, Terms>, p: Payment) {
    p.id in terms && terms[p.id] == p.terms
  }

  /** `p` is what the call has inserted: new, pending, and as requested. */
  predicate NewRow(terms: map<PayId, Terms>, call: Call, p: Payment) {
    IsPaymentRef(p.id) && p.id !in terms && p.terms == call.terms && p.status == PENDING
  }

  predicate CallOk(terms: map<PayId, Terms>, call: Call) {
    (call.pc.Fresh? || call.pc.Done? || Valid(call.terms)) &&
    match call.pc
    case AtOutbox(p) => NewRow(terms, call, p)
    case AtCommit(p, rows) => NewRow(terms, call, p) && |rows| == 1 && rows[0] == CreatedRow(p, rows[0].createdAt)
    case AtComplete(p) => Genuine(terms, p) && p.terms.key == call.terms.key
    case Done(Returned(p)) => Genuine(terms, p) && p.terms.key == call.terms.key
    case _ => true
  }

  /** No two uncommitted inserts, and no uncommitted and committed one, share a key or an id. */
  ghost predicate CallsOk(db: Tables, calls: seq<Call>) {
    && (forall c :: 0 <= c < |calls| ==> CallOk(db.terms, calls[c]))
    && (forall c :: 0 <= c < |calls| && Inserting(calls[c]) ==> calls[c].terms.key !in db.index)
    && (forall c, d :: 0 <= c < d < |calls| && Inserting(calls[c]) && Inserting(calls[d]) ==>
          calls[c].terms.key != calls[d].terms.key && Uncommitted(calls[c]).id != Uncommitted(calls[d]).id)
  }

  /** Every completed idempotency record names the payment of its key. */
  ghost predicate RecordsOk(terms: map<PayId, Terms>, redis: map<Key, Record>) {
    forall k :: k in redis && redis[k].Completed? ==>
      Genuine(terms, redis[k].payment) && redis[k].payment.terms.key == k
  }

  predicate AttemptOk(terms: map<PayId, Terms>, att: Attempt) {
    && att.pay in terms
    && (att.phase.Caching? ==> att.phase.settled.id == att.pay && Genuine(terms, att.phase.settled))
    && (att.phase.Publishing? ==> att.phase.event.id == att.pay && Genuine(terms, att.phase.event))
  }

  /** What the saga is about to write into Redis or announce is genuine too. */
  ghost predicate AttemptsOk(terms: map<PayId, Terms>, attempts: seq<Attempt>) {
    forall a :: 0 <= a < |attempts| ==> AttemptOk(terms, attempts[a])
  }

  ghost predicate Rows(s: State) {
    && TableOk(s.db) && OutboxOk(s.db.terms, s.db.outbox)
    && CallsOk(s.db, s.calls)
    && RecordsOk(s.db.terms, s.redis)
    && AttemptsOk(s.db.terms, s.attempts)
  }

  // ---------------------------------------------------------------------------
  // Steps of calls
  // ---------------------------------------------------------------------------

  lemma OutboxGrows(terms: map<PayId, Terms>, outbox: seq<OutboxRow>, p: Payment, now: int)
    requires OutboxOk(terms, outbox) && p.id !in terms && p.status == PENDING
    ensures OutboxOk(terms[p.id := p.terms], outbox + [CreatedRow(p, now)])
  {
    var outbox' := outbox + [CreatedRow(p, now)];
    assert outbox'[|outbox|].aggregate == p.id;
    forall id | id in terms ensures HasRow(outbox', id) {
      var i :| 0 <= i < |outbox| && outbox[i].aggregate == id;
      assert outbox'[i].aggregate == id;
    }
  }

  /** COMMIT adds one payment and its outbox row. */
  lemma CommitKeepsTables(db: Tables, p: Payment, now: int)
    requires TableOk(db) && OutboxOk(db.terms, db.outbox) && Valid(p.terms)
    requires IsPaymentRef(p.id) && p.id !in db.terms && p.terms.key !in db.index && p.status == PENDING
    ensures var db' := Committed(db, p, [CreatedRow(p, now)]); TableOk(db') && OutboxOk(db'.terms, db'.outbox)
  {
    OutboxGrows(db.terms, db.outbox, p, now);
  }

  lemma CommitKeepsCalls(db: Tables, calls: seq<Call>, c: nat, call: Call, rows: seq<OutboxRow>)
    requires CallsOk(db, calls) && c < |calls| && calls[c].pc.AtCommit?
    requires var p := calls[c].pc.pending; CallOk(db.terms[p.id := p.terms], call) && !Inserting(call)
    ensures CallsOk(Committed(db, calls[c].pc.pending, rows), calls[c := call])
  {
    assert CallOk(db.terms, calls[c]);
    var p := calls[c].pc.pending;
    forall d | 0 <= d < |calls| && d != c ensures CallOk(db.terms[p.id := p.terms], calls[d]) {
      assert CallOk(db.terms, calls[d]);
      assert Inserting(calls[d]) ==> Uncommitted(calls[d]).id != p.id;
    }
  }

  /** `g` is sound and inserts nothing that `f` had not inserted. */
  ghost predicate LocalStep(f: Front, g: Front) {
    && g.db == f.db && CallOk(f.db.terms, g.call) && RecordsOk(f.db.terms, g.redis)
    && (Inserting(g.call) ==> Inserting(f.call) && Uncommitted(g.call) == Uncommitted(f.call)
                              && g.call.terms == f.call.terms)
  }

  lemma RecordWritten(terms: map<PayId, Terms>, redis: map<Key, Record>, k: Key, r: Record)
    requires RecordsOk(terms, redis)
    requires r.Completed? ==> Genuine(terms, r.payment) && r.payment.terms.key == k
    ensures RecordsOk(terms, redis[k := r]) && RecordsOk(terms, redis - {k})
  {
  }

  lemma DbCheckIsLocal(f: Front)
    requires TableOk(f.db) && CallOk(f.db.terms, f.call) && RecordsOk(f.db.terms, f.redis) && f.call.pc.AtDbCheck?
    ensures LocalStep(f, AfterDbCheck(f))
  {
    hide RecordsOk;
  }

  lemma GetIsLocal(f: Front, c: nat)
    requires CallOk(f.db.terms, f.call) && RecordsOk(f.db.terms, f.redis) && f.call.pc.AtGet?
    ensures LocalStep(f, AfterGet(f, c))
  {
  }

  /** A step that neither inserts nor commits leaves the call and the records sound. */
  lemma NextIsLocal(f: Front, c: nat, id: PayId, now: int, blocked: bool)
    requires TableOk(f.db) && CallOk(f.db.terms, f.call) && RecordsOk(f.db.terms, f.redis)
    requires !f.call.pc.AtCommit? && (f.call.pc.AtInsert? ==> blocked)
    ensures LocalStep(f, NextOfCall(f, c, id, now, blocked))
  {
    var k := f.call.terms.key;
    RecordWritten(f.db.terms, f.redis, k, InFlight(f.call.terms, c));
    if f.call.pc.AtComplete? {
      RecordWritten(f.db.terms, f.redis, k, Completed(f.call.pc.answer));
    }
    if f.call.pc.AtDbCheck? {
      DbCheckIsLocal(f);
    } else if f.call.pc.AtGet? {
      GetIsLocal(f, c);
    }
    hide TableOk, RecordsOk, AfterDbCheck, AfterGet;
    match f.call.pc
    case Fresh =>
    case AtSetNX =>
    case AtGet =>
    case AtDbCheck =>
    case AtInsert =>
    case AtOutbox(_) =>
    case AtCommit(_, _) =>
    case AtComplete(_) =>
    case AtRelease(_) =>
    case Done(_) =>
  }

  lemma RedisFaultIsLocal(f: Front, c: nat, applied: bool)
    requires CallOk(f.db.terms, f.call) && RecordsOk(f.db.terms, f.redis)
    ensures LocalStep(f, RedisFaultOfCall(f, c, applied))
  {
    var k := f.call.terms.key;
    RecordWritten(f.db.terms, f.redis, k, InFlight(f.call.terms, c));
    if f.call.pc.AtComplete? {
      RecordWritten(f.db.terms, f.redis, k, Completed(f.call.pc.answer));
    }
  }

  lemma DbFaultIsLocal(f: Front, applied: bool)
    requires CallOk(f.db.terms, f.call) && RecordsOk(f.db.terms, f.redis)
    requires f.call.pc.AtCommit? ==> !applied
    ensures LocalStep(f, DbFaultOfCall(f, applied))
  {
  }

  lemma LocalStepKeepsRows(s: State, c: nat, f: Front)
    requires Rows(s) && c < |s.calls|
    requires LocalStep(FrontOf(s, c), f)
    ensures Rows(WithFront(s, c, f))
  {
    hide TableOk, OutboxOk, RecordsOk, AttemptsOk, CallOk;
  }

  /** INSERT of a payment under a free key and a fresh id. */
  lemma InsertKeepsRows(s: State, c: nat, id: PayId)
    requires Rows(s) && c < |s.calls| && s.calls[c].pc.AtInsert? && !InsertBlocked(s, c, id)
    ensures Rows(WithFront(s, c, AfterInsert(FrontOf(s, c), id)))
  {
    var f := AfterInsert(FrontOf(s, c), id);
    if s.calls[c].terms.key in s.db.index {
      LocalStepKeepsRows(s, c, f);
    } else {
      assert CallsOk(s.db, s.calls[c := f.call]);
    }
  }

  lemma CommitKeepsRest(terms: map<PayId, Terms>, p: Payment, redis: map<Key, Record>, attempts: seq<Attempt>)
    requires RecordsOk(terms, redis) && AttemptsOk(terms, attempts) && p.id !in terms
    ensures RecordsOk(terms[p.id := p.terms], redis) && AttemptsOk(terms[p.id := p.terms], attempts)
  {
    forall a | 0 <= a < |attempts| ensures AttemptOk(terms[p.id := p.terms], attempts[a]) {
      assert AttemptOk(terms, attempts[a]);
    }
  }

  lemma CommitKeepsRows(s: State, c: nat, f: Front)
    requires Rows(s) && c < |s.calls| && s.calls[c].pc.AtCommit?
    requires f.db == Committed(s.db, s.calls[c].pc.pending, s.calls[c].pc.rows) && f.redis == s.redis
    requires !Inserting(f.call) && CallOk(f.db.terms, f.call)
    ensures Rows(WithFront(s, c, f))
  {
    assert CallOk(s.db.terms, s.calls[c]);
    var rows := s.calls[c].pc.rows;
    assert rows == [CreatedRow(s.calls[c].pc.pending, rows[0].createdAt)];
    CommitKeepsTables(s.db, s.calls[c].pc.pending, rows[0].createdAt);
    CommitKeepsRest(s.db.terms, s.calls[c].pc.pending, s.redis, s.attempts);
    CommitKeepsCalls(s.db, s.calls, c, f.call, s.calls[c].pc.rows);
  }

  lemma CallKeepsRows(s: State, a: Action)
    requires Rows(s) && OfCall(a) && a.c < |s.calls|
    ensures Rows(WithFront(s, a.c, CallAction(s, a)))
  {
    var f := FrontOf(s, a.c);
    assert CallOk(s.db.terms, f.call);
    var f' := CallAction(s, a);
    if a.CallStep? && f.call.pc.AtInsert? {
      if InsertBlocked(s, a.c, a.id) {
        LocalStepKeepsRows(s, a.c, f);
      } else {
        InsertKeepsRows(s, a.c, a.id);
      }
    } else if f.call.pc.AtCommit? && (a.CallStep? || (a.CallDbFault? && a.applied)) {
      CommitKeepsRows(s, a.c, f');
    } else {
      match a {
        case CallStep(c, id, now) => NextIsLocal(f, c, id, now, InsertBlocked(s, c, id));
        case CallRedisFault(c, applied) => RedisFaultIsLocal(f, c, applied);
        case CallDbFault(_, applied) => DbFaultIsLocal(f, applied);
        case CallCrash(_) =>
      }
      LocalStepKeepsRows(s, a.c, f');
    }
  }

  // ---------------------------------------------------------------------------
  // Steps of the relay and of the saga
  // ---------------------------------------------------------------------------

  lemma OutboxMarked(terms: map<PayId, Terms>, outbox: seq<OutboxRow>, n: nat)
    requires OutboxOk(terms, outbox) && n < |outbox|
    ensures OutboxOk(terms, outbox[n := outbox[n].(processed := true)])
  {
    var outbox' := outbox[n := outbox[n].(processed := true)];
    forall id | id in terms ensures HasRow(outbox', id) {
      var i :| 0 <= i < |outbox| && outbox[i].aggregate == id;
      assert outbox'[i].aggregate == id;
    }
  }

  lemma WorkerKeepsOutbox(terms: map<PayId, Terms>, l: Lane, a: Action)
    requires OutboxOk(terms, l.outbox) && OfWorker(a)
    ensures OutboxOk(terms, WorkerAction(l, a).outbox)
  {
    if (a.Mark? || a.MarkFault?) && Busy(l) {
      OutboxMarked(terms, l.outbox, l.worker.queue[0]);
    }
  }

  ghost predicate SoundStep(terms: map<PayId, Terms>, b: Back, b': Back) {
    AttemptOk(terms, b'.att) && b'.status.Keys == b.status.Keys && b'.att.pay == b.att.pay
  }

  lemma NextOfSagaIsSound(terms: map<PayId, Terms>, b: Back)
    requires AttemptOk(terms, b.att) && b.att.pay in b.status
    ensures SoundStep(terms, b, NextOfSaga(b, terms[b.att.pay]))
  {
    match b.att.phase
    case Rejecting =>
    case Calling =>
    case Waiting =>
    case Decided(_) =>
    case Caching(_) =>
    case Publishing(_) =>
    case Ended =>
  }

  lemma FaultOfSagaIsSound(terms: map<PayId, Terms>, b: Back, applied: bool)
    requires AttemptOk(terms, b.att) && b.att.pay in b.status
    ensures SoundStep(terms, b, FaultOfSaga(b, terms[b.att.pay], applied))
  {
    hide Announce, Verdict, Genuine;
    match b.att.phase
    case Rejecting =>
    case Calling =>
    case Waiting =>
    case Decided(_) =>
    case Caching(_) =>
    case Publishing(_) =>
    case Ended =>
  }

  lemma AttemptStaysOk(terms: map<PayId, Terms>, b: Back, a: Action)
    requires OfSaga(a) && AttemptOk(terms, b.att) && b.att.pay in b.status
    ensures SoundStep(terms, b, SagaAction(b, terms[b.att.pay], a))
  {
    hide NextOfSaga, FaultOfSaga;
    match a
    case SagaStep(_) => NextOfSagaIsSound(terms, b);
    case BreakerOpen(_) =>
    case ReplyLost(_) =>
    case SagaFault(_, applied) => FaultOfSagaIsSound(terms, b, applied);
    case SagaCrash(_) =>
    case Serve(_, _) =>
  }

  lemma AttemptKeepsRecords(terms: map<PayId, Terms>, b: Back, a: Action)
    requires OfSaga(a) && AttemptOk(terms, b.att) && RecordsOk(terms, b.redis)
    ensures RecordsOk(terms, SagaAction(b, terms[b.att.pay], a).redis)
  {
    if b.att.phase.Caching? {
      RecordWritten(terms, b.redis, terms[b.att.pay].key, Completed(b.att.phase.settled));
    }
  }

  lemma SagaWritesOneRecord(b: Back, t: Terms, a: Action)
    requires OfSaga(a)
    ensures SagaAction(b, t, a).redis == b.redis ||
            (b.att.phase.Caching? && SagaAction(b, t, a).redis == b.redis[t.key := Completed(b.att.phase.settled)])
  {
  }

  /** A call writes the tables only by committing its one new payment. */
  lemma CallWritesTables(s: State, a: Action)
    requires OfCall(a) && a.c < |s.calls| && CallOk(s.db.terms, s.calls[a.c])
    ensures var g, pc := CallAction(s, a), s.calls[a.c].pc;
            g.db == s.db || (pc.AtCommit? && g.db == Committed(s.db, pc.pending, pc.rows)
                             && pc.pending.id !in s.db.terms && pc.pending.status == PENDING)
  {
  }

  lemma WorkerKeepsRows(s: State, a: Action)
    requires Rows(s) && OfWorker(a)
    ensures Rows(ApplyWorker(s, a))
  {
    if a.w < |s.workers| {
      var l := Lane(s.db.outbox, s.bus.created, s.workers[a.w]);
      WorkerKeepsOutbox(s.db.terms, l, a);
      hide WorkerAction;
      WithLaneKeepsRows(s, a.w, WorkerAction(l, a));
      hide Rows, TableOk, OutboxOk;
    }
  }

  lemma WithLaneKeepsRows(s: State, w: nat, l: Lane)
    requires Rows(s) && w < |s.workers| && OutboxOk(s.db.terms, l.outbox)
    ensures Rows(WithLane(s, w, l))
  {
    hide OutboxOk, RecordsOk, AttemptsOk;
  }

  lemma WithBackKeepsRows(s: State, a: nat, b: Back)
    requires Rows(s) && a < |s.attempts|
    requires b.status.Keys == s.db.status.Keys && RecordsOk(s.db.terms, b.redis) && AttemptOk(s.db.terms, b.att)
    ensures Rows(WithBack(s, a, b))
  {
  }

  lemma SagaKeepsRows(s: State, a: Action)
    requires Rows(s) && OfSaga(a)
    ensures Rows(ApplySaga(s, a))
  {
    hide SagaAction;
    if a.a < |s.attempts| {
      var b := BackOf(s, a.a);
      assert AttemptOk(s.db.terms, b.att);
      AttemptStaysOk(s.db.terms, b, a);
      AttemptKeepsRecords(s.db.terms, b, a);
      WithBackKeepsRows(s, a.a, SagaAction(b, s.db.terms[b.att.pay], a));
      hide Rows;
    }
  }

  lemma OtherKeepsRows(s: State, a: Action)
    requires Rows(s) && !OfCall(a) && !OfWorker(a) && !OfSaga(a)
    ensures Rows(ApplyOther(s, a))
  {
  }

  lemma ApplyKeepsRows(s: State, a: Action)
    requires Rows(s)
    ensures Rows(Apply(s, a))
  {
    hide ApplySaga, ApplyWorker, ApplyOther, CallAction, Rows;
    if OfCall(a) {
      if a.c < |s.calls| {
        CallKeepsRows(s, a);
      }
    } else if OfWorker(a) {
      WorkerKeepsRows(s, a);
    } else if OfSaga(a) {
      SagaKeepsRows(s, a);
    } else {
      OtherKeepsRows(s, a);
    }
  }

  lemma {:induction false} RunKeepsRows(s: State, acts: seq<Action>)
    requires Rows(s)
    ensures Rows(Run(s, acts))
    decreases |acts|
  {
    if acts != [] {
      ApplyKeepsRows(s, acts[0]);
      RunKeepsRows(Apply(s, acts[0]), acts[1..]);
    }
  }

  /**
   Two-tier idempotency.  Whatever fails, expires or interleaves, there is at
   most one payment per key, exactly one PaymentCreated row with its fields per
   payment, and all calls that return a payment for a key return the same one.
   */
  lemma OnePaymentPerKey(requests: seq<Terms>, workers: nat, money: Db, acts: seq<Action>)
    ensures var s := Run(Init(requests, workers, money), acts);
            && (forall p, q :: p in s.db.terms && q in s.db.terms && s.db.terms[p].key == s.db.terms[q].key ==> p == q)
            && OutboxOk(s.db.terms, s.db.outbox)
            && (forall i :: 0 <= i < |s.db.outbox| ==>
                  var row := s.db.outbox[i];
                  row.aggregate in s.db.terms && row.payload == Created(row.aggregate, s.db.terms[row.aggregate], PENDING))
            && (forall i, j :: 0 <= i < j < |s.db.outbox| ==> s.db.outbox[i].aggregate != s.db.outbox[j].aggregate)
            && (forall p :: p in s.db.terms ==> exists i :: 0 <= i < |s.db.outbox| && s.db.outbox[i].aggregate == p)
            && (forall c, d, p, q ::
                  0 <= c < |s.calls| && 0 <= d < |s.calls| && s.calls[c].pc == Done(Returned(p)) &&
                  s.calls[d].pc == Done(Returned(q)) && s.calls[c].terms.key == s.calls[d].terms.key ==>
                    p.id == q.id && p.terms == q.terms && Genuine(s.db.terms, p))
  {
    RunKeepsRows(Init(requests, workers, money), acts);
    var s := Run(Init(requests, workers, money), acts);
    OutboxMeans(s.db.terms, s.db.outbox);
    hide Run, Init, OutboxOk, RecordsOk, AttemptsOk;
    forall c, p | 0 <= c < |s.calls| && s.calls[c].pc == Done(Returned(p))
      ensures Genuine(s.db.terms, p) && s.calls[c].terms.key in s.db.index && s.db.index[s.calls[c].terms.key] == p.id
    {
      assert CallOk(s.db.terms, s.calls[c]);
    }
  }

  lemma OutboxMeans(terms: map<PayId, Terms>, outbox: seq<OutboxRow>)
    requires OutboxOk(terms, outbox)
    ensures forall i :: 0 <= i < |outbox| ==>
              outbox[i].aggregate in terms && outbox[i].payload == Created(outbox[i].aggregate, terms[outbox[i].aggregate], PENDING)
    ensures forall i, j :: 0 <= i < j < |outbox| ==> outbox[i].aggregate != outbox[j].aggregate
    ensures forall p :: p in terms ==> exists i :: 0 <= i < |outbox| && outbox[i].aggregate == p
  {
    assert forall p :: p in terms ==> HasRow(outbox, p);
  }
}
