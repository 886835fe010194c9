/**
 The payment protocol: CreatePayment calls, the outbox relay, fraud results, and
 the saga that moves the money, over one payments table, one outbox table, one
 Redis and the Kafka topics.  Every action of every participant is one step;
 steps interleave arbitrarily, any participant may crash before any step, Redis
 records may expire, messages may be delivered any number of times, and a
 fault of a remote call may or may not have taken effect (`applied`).
 */
module Payments {
  import opened Accounts

  type PayId = string
  type Key = string

  datatype Status = PENDING | SUCCESS | FAILED

  /** The immutable columns of a payment; also what the payload hash identifies. */
  datatype Terms = Terms(key: Key, source: Id, target: Id, amount: int, currency: string)

  datatype Payment = Payment(id: PayId, terms: Terms, status: Status)

  /** An idempotency record.  `owner`, the reserving call, is bookkeeping that Redis does not store. */
  datatype Record = InFlight(hash: Terms, owner: nat) | Completed(payment: Payment)

  /** Body of a PaymentCreated event. */
  datatype Created = Created(id: PayId, terms: Terms, status: Status)

  /** `createdAt` is read from the clock of the inserting process, not at commit. */
  datatype OutboxRow = OutboxRow(aggregate: PayId, payload: Created, createdAt: int, processed: bool)

  datatype Message = Message(key: string, body: Created)

  datatype FraudResult = FraudResult(pay: PayId, approved: bool)

  datatype ResultEvent = ResultEvent(id: PayId, terms: Terms, status: Status)

  datatype Error = BadRequest | BeingProcessed | KeyConflict | Mismatch | Duplicate | DbError

  datatype Outcome = Returned(payment: Payment) | Refused(error: Error) | Crashed

  /** Where a CreatePayment call stands; uncommitted rows are carried along. */
  datatype CallPc =
    | Fresh | AtSetNX | AtGet | AtDbCheck | AtInsert
    | AtOutbox(inserted: Payment)
    | AtCommit(pending: Payment, rows: seq<OutboxRow>)
    | AtComplete(answer: Payment)
    | AtRelease(failure: Error)
    | Done(outcome: Outcome)

  datatype Call = Call(terms: Terms, pc: CallPc)

  /** A relay worker: the outbox rows it still has to handle; `sent` once the first is published. */
  datatype Worker = Worker(queue: seq<nat>, sent: bool)

  datatype Phase =
    | Rejecting | Calling | Waiting | Decided(ok: bool)
    | Caching(settled: Payment) | Publishing(event: Payment) | Ended

  /**
   One handling of a fraud result.  `sent`: its transfer request left; `served`:
   the account service has handled that request; `moved`: and committed it;
   `replyLost`: the caller gave up on the answer; `recorded`: it wrote the status.
   */
  datatype Attempt = Attempt(pay: PayId, phase: Phase, sent: bool, served: bool, moved: bool,
                             replyLost: bool, recorded: bool)

  /**
   Bookkeeping, by key.  The first three: where a call got past the Redis tier
   without a reservation while the key was unused, by a failed SET NX, a failed
   GET, or a GET that found the record gone.  `expired`: where the reservation of a
   call still at work expired.  `violated`: where an insert hit the unique index.
   */
  datatype Flags = Flags(failedSetNX: set<Key>, failedGet: set<Key>, missedGet: set<Key>, expired: set<Key>,
                         violated: set<Key>)

  const NO_FLAGS := Flags({}, {}, {}, {}, {})

  /** The payments table (immutable columns, status column, unique index on the key) and the outbox. */
  datatype Tables = Tables(terms: map<PayId, Terms>, status: map<PayId, Status>, index: map<Key, PayId>,
                           outbox: seq<OutboxRow>)

  /** What has been published: PaymentCreated events, fraud results, result events. */
  datatype Bus = Bus(created: seq<Message>, fraud: seq<FraudResult>, results: seq<ResultEvent>)

  datatype State = State(db: Tables, redis: map<Key, Record>, flags: Flags, calls: seq<Call>,
                         workers: seq<Worker>, bus: Bus, attempts: seq<Attempt>, money: Db)

  datatype Action =
    | CallStep(c: nat, id: PayId, now: int) | CallRedisFault(c: nat, applied: bool)
    | CallDbFault(c: nat, applied: bool) | CallCrash(c: nat)
    | Expire(key: Key)
    | Fetch(w: nat, rows: seq<nat>) | Publish(w: nat) | PublishFault(w: nat, applied: bool)
    | Mark(w: nat) | MarkFault(w: nat, applied: bool) | WorkerCrash(w: nat)
    | Evaluate(m: nat, approved: bool)
    | Deliver(m: nat) | SagaStep(a: nat) | BreakerOpen(a: nat) | ReplyLost(a: nat)
    | SagaFault(a: nat, applied: bool) | SagaCrash(a: nat)
    | Serve(a: nat, healthy: bool) | Foreign(r: Request)

  // ---------------------------------------------------------------------------
  // CreatePayment
  // ---------------------------------------------------------------------------

  predicate Valid(t: Terms) {
    t.key != "" && t.source != "" && t.target != "" && t.source != t.target && t.amount > 0
  }

  function Defaulted(t: Terms): Terms {
    if t.currency == "" then t.(currency := "USD") else t
  }

  predicate IsPaymentRef(ref: string) {
    |ref| >= 4 && ref[..4] == "pay_"
  }

  function Row(db: Tables, id: PayId): Payment
    requires id in db.terms && id in db.status
  {
    Payment(id, db.terms[id], db.status[id])
  }

  function CreatedRow(p: Payment, now: int): OutboxRow {
    OutboxRow(p.id, Created(p.id, p.terms, p.status), now, false)
  }

  /** Has the call inserted a payment that is not committed yet? */
  predicate Inserting(call: Call) {
    call.pc.AtOutbox? || call.pc.AtCommit?
  }

  function Uncommitted(call: Call): Payment
    requires Inserting(call)
  {
    if call.pc.AtOutbox? then call.pc.inserted else call.pc.pending
  }

  /** An insert of a key waits while another transaction has inserted it without committing. */
  predicate KeyLocked(calls: seq<Call>, c: nat, k: Key) {
    exists d :: 0 <= d < |calls| && d != c && Inserting(calls[d]) && calls[d].terms.key == k
  }

  predicate IdTaken(db: Tables, calls: seq<Call>, id: PayId) {
    id in db.terms || exists d :: 0 <= d < |calls| && Inserting(calls[d]) && Uncommitted(calls[d]).id == id
  }

  /** What one step of a call can read and write. */
  datatype Front = Front(db: Tables, redis: map<Key, Record>, flags: Flags, call: Call)

  function Goto(f: Front, pc: CallPc): Front {
    f.(call := f.call.(pc := pc))
  }

  function Committed(db: Tables, p: Payment, rows: seq<OutboxRow>): Tables {
    Tables(db.terms[p.id := p.terms], db.status[p.id := p.status], db.index[p.terms.key := p.id], db.outbox + rows)
  }

  /** Call `c` has the in-flight record of the key. */
  predicate Reserves(redis: map<Key, Record>, k: Key, c: nat) {
    k in redis && redis[k].InFlight? && redis[k].owner == c
  }

  /** The key of a call that goes on to the database without a reservation, while the key is unused. */
  function Unreserved(f: Front, c: nat): set<Key> {
    var k := f.call.terms.key;
    if Reserves(f.redis, k, c) || k in f.db.index then {} else {k}
  }

  /** Manager.Start, first half: SET NX. */
  function AfterSetNX(f: Front, c: nat): Front {
    if f.call.terms.key in f.redis then Goto(f, AtGet)
    else f.(redis := f.redis[f.call.terms.key := InFlight(f.call.terms, c)],
            call := f.call.(pc := AtDbCheck))
  }

  /** Manager.Start, second half: the key existed, so read its record. */
  function AfterGet(f: Front, c: nat): Front {
    var k := f.call.terms.key;
    if k !in f.redis then
      // the record has gone since SET NX: an error, and CreatePayment falls back to the database
      Goto(f, AtDbCheck).(flags := f.flags.(missedGet := f.flags.missedGet + Unreserved(f, c)))
    else match f.redis[k]
      case InFlight(hash, _) =>
        Goto(f, Done(Refused(if hash != f.call.terms then KeyConflict else BeingProcessed)))
      case Completed(p) => Goto(f, Done(Returned(p)))
  }

  /** The second-tier check against the payments table. */
  function AfterDbCheck(f: Front): Front {
    var k := f.call.terms.key;
    if k in f.db.index && f.db.index[k] in f.db.terms && f.db.index[k] in f.db.status then
      if f.db.terms[f.db.index[k]] != f.call.terms then Goto(f, Done(Refused(Mismatch)))
      else Goto(f, AtComplete(Row(f.db, f.db.index[k])))
    else Goto(f, AtInsert)
  }

  /** INSERT INTO payments: the unique index decides. */
  function AfterInsert(f: Front, id: PayId): Front {
    if f.call.terms.key in f.db.index then
      Goto(f, AtRelease(Duplicate)).(flags := f.flags.(violated := f.flags.violated + {f.call.terms.key}))
    else Goto(f, AtOutbox(Payment(id, f.call.terms, PENDING)))
  }

  /**
   The next statement of call `c`, which draws the random id `id` and reads the
   clock as `now` where it needs to.  An INSERT that may not proceed (`blocked`) waits.
   */
  function NextOfCall(f: Front, c: nat, id: PayId, now: int, blocked: bool): Front {
    match f.call.pc
    case Fresh =>
      if !Valid(f.call.terms) then Goto(f, Done(Refused(BadRequest)))
      else f.(call := Call(Defaulted(f.call.terms), AtSetNX))
    case AtSetNX => AfterSetNX(f, c)
    case AtGet => AfterGet(f, c)
    case AtDbCheck => AfterDbCheck(f)
    case AtInsert => if blocked then f else AfterInsert(f, id)
    case AtOutbox(p) => Goto(f, AtCommit(p, [CreatedRow(p, now)]))
    case AtCommit(p, rows) => Goto(f, AtComplete(p)).(db := Committed(f.db, p, rows))
    case AtComplete(p) => Goto(f, Done(Returned(p))).(redis := f.redis[f.call.terms.key := Completed(p)])
    case AtRelease(e) => Goto(f, Done(Refused(e))).(redis := f.redis - {f.call.terms.key})
    case Done(_) => f
  }

  /** A Redis command of a call fails, with or without having been carried out. */
  function RedisFaultOfCall(f: Front, c: nat, applied: bool): Front {
    var k := f.call.terms.key;
    match f.call.pc
    case AtSetNX =>
      var g := Goto(f, AtDbCheck).(
        redis := if applied && k !in f.redis then f.redis[k := InFlight(f.call.terms, c)] else f.redis);
      g.(flags := f.flags.(failedSetNX := f.flags.failedSetNX + Unreserved(g, c)))
    case AtGet => Goto(f, AtDbCheck).(flags := f.flags.(failedGet := f.flags.failedGet + Unreserved(f, c)))
    case AtComplete(p) =>
      Goto(f, Done(Returned(p))).(redis := if applied then f.redis[k := Completed(p)] else f.redis)
    case AtRelease(e) =>
      Goto(f, Done(Refused(e))).(redis := if applied then f.redis - {k} else f.redis)
    case _ => f
  }

  /** A database statement of a call fails; only a failed COMMIT may still have taken effect. */
  function DbFaultOfCall(f: Front, applied: bool): Front {
    match f.call.pc
    case AtDbCheck => Goto(f, Done(Refused(DbError)))
    case AtInsert => Goto(f, AtRelease(DbError))
    case AtOutbox(_) => Goto(f, AtRelease(DbError))
    case AtCommit(p, rows) =>
      Goto(f, AtRelease(DbError)).(db := if applied then Committed(f.db, p, rows) else f.db)
    case _ => f
  }

  function FrontOf(s: State, c: nat): Front
    requires c < |s.calls|
  {
    Front(s.db, s.redis, s.flags, s.calls[c])
  }

  function WithFront(s: State, c: nat, f: Front): State
    requires c < |s.calls|
  {
    s.(db := f.db, redis := f.redis, flags := f.flags, calls := s.calls[c := f.call])
  }

  predicate InsertBlocked(s: State, c: nat, id: PayId)
    requires c < |s.calls|
  {
    KeyLocked(s.calls, c, s.calls[c].terms.key) || IdTaken(s.db, s.calls, id) || !IsPaymentRef(id)
  }

  function CallAction(s: State, a: Action): Front
    requires a.CallStep? || a.CallRedisFault? || a.CallDbFault? || a.CallCrash?
    requires a.c < |s.calls|
  {
    var f := FrontOf(s, a.c);
    match a
    case CallStep(c, id, now) => NextOfCall(f, c, id, now, InsertBlocked(s, c, id))
    case CallRedisFault(c, applied) => RedisFaultOfCall(f, c, applied)
    case CallDbFault(c, applied) => DbFaultOfCall(f, applied)
    case CallCrash(c) => if f.call.pc.Done? then f else Goto(f, Done(Crashed))
  }

  /** The call is between its reservation and its Complete or Release. */
  predicate AtWork(call: Call) {
    call.pc.AtDbCheck? || call.pc.AtInsert? || Inserting(call) || call.pc.AtRelease?
  }

  /** The key, if its record reserves it for a call that is still at work and has not stored its payment. */
  function Unfinished(s: State, k: Key): set<Key> {
    if k in s.redis && s.redis[k].InFlight? && s.redis[k].owner < |s.calls| && AtWork(s.calls[s.redis[k].owner])
       && k !in s.db.index then {k} else {}
  }

  function ExpireRecord(s: State, k: Key): State {
    s.(redis := s.redis - {k}, flags := s.flags.(expired := s.flags.expired + Unfinished(s, k)))
  }

  // ---------------------------------------------------------------------------
  // Outbox relay
  // ---------------------------------------------------------------------------

  function MessageOf(row: OutboxRow): Message {
    Message(if row.payload.terms.source != "" then row.payload.terms.source else row.aggregate, row.payload)
  }

  function Rest(w: Worker): Worker {
    Worker(if w.queue == [] then [] else w.queue[1..], false)
  }

  /** What one step of a relay worker can read and write. */
  datatype Lane = Lane(outbox: seq<OutboxRow>, created: seq<Message>, worker: Worker)

  predicate Busy(l: Lane) {
    l.worker.queue != [] && l.worker.queue[0] < |l.outbox|
  }

  function Published(l: Lane): seq<Message>
    requires Busy(l)
  {
    l.created + [MessageOf(l.outbox[l.worker.queue[0]])]
  }

  function Marked(l: Lane): seq<OutboxRow>
    requires Busy(l)
  {
    l.outbox[l.worker.queue[0] := l.outbox[l.worker.queue[0]].(processed := true)]
  }

  predicate AllPending(outbox: seq<OutboxRow>, rows: seq<nat>) {
    forall i :: 0 <= i < |rows| ==> rows[i] < |outbox| && !outbox[rows[i]].processed
  }

  function WorkerAction(l: Lane, a: Action): Lane
    requires a.Fetch? || a.Publish? || a.PublishFault? || a.Mark? || a.MarkFault? || a.WorkerCrash?
  {
    match a
    case Fetch(_, rows) =>
      if l.worker.queue == [] && AllPending(l.outbox, rows) then l.(worker := Worker(rows, false)) else l
    case Publish(_) =>
      if Busy(l) && !l.worker.sent then l.(created := Published(l), worker := l.worker.(sent := true)) else l
    case PublishFault(_, applied) =>
      if Busy(l) && !l.worker.sent then
        l.(created := if applied then Published(l) else l.created, worker := Rest(l.worker))
      else l
    case Mark(_) =>
      if Busy(l) && l.worker.sent then l.(outbox := Marked(l), worker := Rest(l.worker)) else l
    case MarkFault(_, applied) =>
      if Busy(l) && l.worker.sent then
        l.(outbox := if applied then Marked(l) else l.outbox, worker := Rest(l.worker))
      else l
    case WorkerCrash(_) => l.(worker := Worker([], false))
  }

  function WithLane(s: State, w: nat, l: Lane): State
    requires w < |s.workers|
  {
    s.(db := s.db.(outbox := l.outbox), bus := s.bus.(created := l.created), workers := s.workers[w := l.worker])
  }

  // ---------------------------------------------------------------------------
  // Fraud results, saga, transfers
  // ---------------------------------------------------------------------------

  /** The transfer a payment asks the account service for. */
  function TransferOf(id: PayId, t: Terms): Request {
    Request(id, t.source, t.target, t.amount)
  }

  predicate Handling(a: Attempt) {
    !a.phase.Ended?
  }

  /** Results of one payment are handled one after the other. */
  predicate BeingHandled(attempts: seq<Attempt>, id: PayId) {
    exists a :: 0 <= a < |attempts| && attempts[a].pay == id && Handling(attempts[a])
  }

  function NewAttempt(id: PayId, phase: Phase): Attempt {
    Attempt(id, phase, false, false, false, false, false)
  }

  /** The saga reads the payment and decides what to do about it. */
  function DeliverResult(s: State, m: nat): State {
    if m >= |s.bus.fraud| || s.bus.fraud[m].pay !in s.db.terms || s.bus.fraud[m].pay !in s.db.status
       || BeingHandled(s.attempts, s.bus.fraud[m].pay) then s
    else
      var id := s.bus.fraud[m].pay;
      var phase :=
        if s.db.status[id] != PENDING then Publishing(Row(s.db, id))
        else if s.bus.fraud[m].approved then Calling else Rejecting;
      s.(attempts := s.attempts + [NewAttempt(id, phase)])
  }

  /** What one step of an attempt at payment `t` can read and write. */
  datatype Back = Back(status: map<PayId, Status>, redis: map<Key, Record>, results: seq<ResultEvent>,
                       money: Db, att: Attempt)

  function InPhase(b: Back, p: Phase): Back {
    b.(att := b.att.(phase := p))
  }

  function Verdict(p: Phase): Status {
    if p == Decided(true) then SUCCESS else FAILED
  }

  /** UpdatePaymentStatus to the attempt's verdict. */
  function RecordStatus(b: Back, next: Phase): Back {
    b.(status := b.status[b.att.pay := Verdict(b.att.phase)], att := b.att.(phase := next, recorded := true))
  }

  function Announce(b: Back, p: Payment): seq<ResultEvent> {
    b.results + [ResultEvent(p.id, p.terms, p.status)]
  }

  function NextOfSaga(b: Back, t: Terms): Back {
    match b.att.phase
    case Rejecting => RecordStatus(b, Caching(Payment(b.att.pay, t, FAILED)))
    case Calling => b.(att := b.att.(phase := Waiting, sent := true))
    case Waiting => if b.att.served then InPhase(b, Decided(b.att.moved)) else b
    case Decided(_) => RecordStatus(b, Caching(Payment(b.att.pay, t, Verdict(b.att.phase))))
    case Caching(p) => InPhase(b, Publishing(p)).(redis := b.redis[t.key := Completed(p)])
    case Publishing(p) => InPhase(b, Ended).(results := Announce(b, p))
    case Ended => b
  }

  /** The status write, the cache write or the publication of an attempt reports an error. */
  function FaultOfSaga(b: Back, t: Terms, applied: bool): Back {
    match b.att.phase
    case Rejecting => if applied then RecordStatus(b, Ended) else InPhase(b, Ended)
    case Decided(_) => if applied then RecordStatus(b, Ended) else InPhase(b, Ended)
    case Caching(p) =>
      InPhase(b, Publishing(p)).(redis := if applied then b.redis[t.key := Completed(p)] else b.redis)
    case Publishing(p) => InPhase(b, Ended).(results := if applied then Announce(b, p) else b.results)
    case Calling => b
    case Waiting => b
    case Ended => b
  }

  /** The account service handles the attempt's request, whether or not anybody still waits for the answer. */
  function ServeRequest(b: Back, t: Terms, healthy: bool): Back {
    if !b.att.sent || b.att.served then b
    else if healthy && Accepts(b.money, TransferOf(b.att.pay, t)) then
      b.(money := Move(b.money, TransferOf(b.att.pay, t)), att := b.att.(served := true, moved := true))
    else b.(att := b.att.(served := true))
  }

  function SagaAction(b: Back, t: Terms, a: Action): Back
    requires a.SagaStep? || a.BreakerOpen? || a.ReplyLost? || a.SagaFault? || a.SagaCrash? || a.Serve?
  {
    match a
    case SagaStep(_) => NextOfSaga(b, t)
    case BreakerOpen(_) => if b.att.phase.Calling? then InPhase(b, Decided(false)) else b
    case ReplyLost(_) =>
      if b.att.phase.Waiting? then b.(att := b.att.(phase := Decided(false), replyLost := true)) else b
    case SagaFault(_, applied) => FaultOfSaga(b, t, applied)
    case SagaCrash(_) => InPhase(b, Ended)
    case Serve(_, healthy) => ServeRequest(b, t, healthy)
  }

  function BackOf(s: State, a: nat): Back
    requires a < |s.attempts|
  {
    Back(s.db.status, s.redis, s.bus.results, s.money, s.attempts[a])
  }

  function WithBack(s: State, a: nat, b: Back): State
    requires a < |s.attempts|
  {
    s.(db := s.db.(status := b.status), redis := b.redis, bus := s.bus.(results := b.results), money := b.money,
       attempts := s.attempts[a := b.att])
  }

  /** The fraud service evaluates a message of payment-events, to whatever verdict. */
  function EvaluateMessage(s: State, m: nat, approved: bool): State {
    if m >= |s.bus.created| then s
    else s.(bus := s.bus.(fraud := s.bus.fraud + [FraudResult(s.bus.created[m].body.id, approved)]))
  }

  predicate OfCall(a: Action) {
    a.CallStep? || a.CallRedisFault? || a.CallDbFault? || a.CallCrash?
  }

  predicate OfWorker(a: Action) {
    a.Fetch? || a.Publish? || a.PublishFault? || a.Mark? || a.MarkFault? || a.WorkerCrash?
  }

  predicate OfSaga(a: Action) {
    a.SagaStep? || a.BreakerOpen? || a.ReplyLost? || a.SagaFault? || a.SagaCrash? || a.Serve?
  }

  function ApplyCall(s: State, a: Action): State
    requires OfCall(a)
  {
    if a.c < |s.calls| then WithFront(s, a.c, CallAction(s, a)) else s
  }

  function ApplyWorker(s: State, a: Action): State
    requires OfWorker(a)
  {
    if a.w < |s.workers| then
      WithLane(s, a.w, WorkerAction(Lane(s.db.outbox, s.bus.created, s.workers[a.w]), a))
    else s
  }

  function ApplySaga(s: State, a: Action): State
    requires OfSaga(a)
  {
    if a.a < |s.attempts| && s.attempts[a.a].pay in s.db.terms then
      WithBack(s, a.a, SagaAction(BackOf(s, a.a), s.db.terms[s.attempts[a.a].pay], a))
    else s
  }

  function ApplyOther(s: State, a: Action): State
    requires !OfCall(a) && !OfWorker(a) && !OfSaga(a)
  {
    match a
    case Expire(k) => ExpireRecord(s, k)
    case Evaluate(m, approved) => EvaluateMessage(s, m, approved)
    case Deliver(m) => DeliverResult(s, m)
    // transfers requested by others never use a payment id as their reference
    case Foreign(r) => if IsPaymentRef(r.ref) then s else s.(money := MoveIfAccepted(s.money, r))
  }

  function Apply(s: State, a: Action): State {
    if OfCall(a) then ApplyCall(s, a)
    else if OfWorker(a) then ApplyWorker(s, a)
    else if OfSaga(a) then ApplySaga(s, a)
    else ApplyOther(s, a)
  }

  function Run(s: State, acts: seq<Action>): State
    decreases |acts|
  {
    if acts == [] then s else Run(Apply(s, acts[0]), acts[1..])
  }

  /** A run extended by one action. */
  lemma {:induction false} Then(s0: State, acts: seq<Action>, a: Action)
    ensures Run(s0, acts + [a]) == Apply(Run(s0, acts), a)
    decreases |acts|
  {
    if acts == [] {
      assert acts + [a] == [a] && [a][1..] == [];
    } else {
      Then(Apply(s0, acts[0]), acts[1..], a);
      assert (acts + [a])[1..] == acts[1..] + [a];
    }
  }

  lemma {:induction false} RunAppend(s: State, xs: seq<Action>, ys: seq<Action>)
    ensures Run(s, xs + ys) == Run(Run(s, xs), ys)
    decreases |xs|
  {
    if xs == [] {
      assert xs + ys == ys;
    } else {
      RunAppend(Apply(s, xs[0]), xs[1..], ys);
      assert (xs + ys)[1..] == xs[1..] + ys;
    }
  }

  /** Calls that have not begun, idle workers, nothing stored; `money` holds the accounts. */
  function Init(requests: seq<Terms>, workers: nat, money: Db): State {
    State(Tables(map[], map[], map[], []), map[], NO_FLAGS,
          seq(|requests|, i requires 0 <= i < |requests| => Call(requests[i], Fresh)),
          seq(workers, _ => Worker([], false)), Bus([], [], []), [], money)
  }
}
