/**
 The payment service as one process runs it: the idempotency manager over
 Redis, CreatePayment, and ProcessFraudResult with its circuit breaker, changing
 the tables in place.  How each remote command ends is an input.  These methods
 are one call that nothing interrupts; each is proved to end exactly where the
 steps of module Payments lead, so what holds of every run holds of them.
 */
module PaymentService {
  import opened Accounts
  import opened Payments
  import opened PaymentRows
  import opened Faults
  import B = Breaker

  /** What Manager.Start reports. */
  datatype Started = Reserved | Existing(payment: Payment) | ErrInFlight | ErrConflict | ErrRedis

  class Manager {
    var records: map<Key, Record>

    constructor ()
      ensures records == map[]
    {
      records := map[];
    }

    method Start(key: Key, hash: Terms, owner: nat, setnx: Net, get: Net) returns (r: Started)
      modifies this
      ensures records == if key !in old(records) && TakesEffect(setnx) then old(records)[key := InFlight(hash, owner)]
                         else old(records)
      ensures r == if setnx.Fails? then ErrRedis
                   else if key !in old(records) then Reserved
                   else if get.Fails? then ErrRedis
                   else match old(records)[key]
                     case InFlight(h, _) => (if h != hash then ErrConflict else ErrInFlight)
                     case Completed(p) => Existing(p)
    {
      var ok := key !in records;
      if ok && TakesEffect(setnx) {
        records := records[key := InFlight(hash, owner)];
      }
      if setnx.Fails? {
        return ErrRedis;
      }
      if ok {
        return Reserved;
      }
      if get.Fails? {
        return ErrRedis;
      }
      match records[key]
      case InFlight(h, _) =>
        if h != hash {
          return ErrConflict;
        }
        return ErrInFlight;
      case Completed(p) => return Existing(p);
    }

    method Complete(key: Key, p: Payment, net: Net)
      modifies this
      ensures records == if TakesEffect(net) then old(records)[key := Completed(p)] else old(records)
    {
      if TakesEffect(net) {
        records := records[key := Completed(p)];
      }
    }

    method Release(key: Key, net: Net)
      modifies this
      ensures records == if TakesEffect(net) then old(records) - {key} else old(records)
    {
      if TakesEffect(net) {
        records := records - {key};
      }
    }
  }

  // ---------------------------------------------------------------------------
  // One CreatePayment call on its own
  // ---------------------------------------------------------------------------

  /** How the remote commands of one CreatePayment end; `true` is a failed database statement. */
  datatype CreateFaults = CreateFaults(setnx: Net, get: Net, lookup: bool, insert: bool, outbox: bool,
                                       commit: Net, cache: Net, release: Net)

  function SoloStep(f: Front, c: nat, id: PayId, now: int, x: CreateFaults): Front {
    match f.call.pc
    case AtSetNX => RedisStep(f, c, id, now, x.setnx)
    case AtGet => RedisStep(f, c, id, now, x.get)
    case AtDbCheck => if x.lookup then DbFaultOfCall(f, false) else NextOfCall(f, c, id, now, false)
    case AtInsert => if x.insert then DbFaultOfCall(f, false) else NextOfCall(f, c, id, now, false)
    case AtOutbox(_) => if x.outbox then DbFaultOfCall(f, false) else NextOfCall(f, c, id, now, false)
    case AtCommit(_, _) =>
      if x.commit.Fails? then DbFaultOfCall(f, x.commit.applied) else NextOfCall(f, c, id, now, false)
    case AtComplete(_) => RedisStep(f, c, id, now, x.cache)
    case AtRelease(_) => RedisStep(f, c, id, now, x.release)
    case _ => NextOfCall(f, c, id, now, false)
  }

  function RedisStep(f: Front, c: nat, id: PayId, now: int, n: Net): Front {
    if n.Fails? then RedisFaultOfCall(f, c, n.applied) else NextOfCall(f, c, id, now, false)
  }

  function Solo(f: Front, c: nat, id: PayId, now: int, x: CreateFaults, n: nat): Front
    decreases n
  {
    if n == 0 then f else Solo(SoloStep(f, c, id, now, x), c, id, now, x, n - 1)
  }

  /** More statements than any call has. */
  const ENOUGH: nat := 10

  lemma {:induction false} DoneStays(f: Front, c: nat, id: PayId, now: int, x: CreateFaults, n: nat)
    requires f.call.pc.Done?
    ensures Solo(f, c, id, now, x, n) == f
  {
    if n > 0 {
      DoneStays(f, c, id, now, x, n - 1);
    }
  }

  predicate Ends(f: Front, db: Tables, redis: map<Key, Record>, r: Outcome) {
    f.db == db && f.redis == redis && f.call.pc == Done(r)
  }

  function Begin(db: Tables, redis: map<Key, Record>, req: Terms): Front {
    Front(db, redis, NO_FLAGS, Call(req, Fresh))
  }

  predicate BeforeInsert(pc: CallPc) {
    pc.Fresh? || pc.AtSetNX? || pc.AtGet? || pc.AtDbCheck? || pc.AtInsert?
  }

  /** No other call is between INSERT and COMMIT, and `id` is still free if it may be needed. */
  ghost predicate Alone(s: State, c: nat, id: PayId) {
    && c < |s.calls|
    && (forall d :: 0 <= d < |s.calls| && d != c ==> !Inserting(s.calls[d]))
    && (BeforeInsert(s.calls[c].pc) ==> id !in s.db.terms && IsPaymentRef(id))
  }

  lemma SoloStepIsAction(s: State, c: nat, id: PayId, now: int, x: CreateFaults) returns (a: Action)
    requires Alone(s, c, id)
    ensures Apply(s, a) == WithFront(s, c, SoloStep(FrontOf(s, c), c, id, now, x))
    ensures Alone(Apply(s, a), c, id)
  {
    hide WorkerAction, SagaAction;
    if s.calls[c].pc.AtInsert? {
      NotBlocked(s, c, id);
    }
    StaysAlone(s, c, id, now, x);
    assert c < |s.calls|;
    hide Alone;
    var pc := s.calls[c].pc;
    a := CallStep(c, id, now);
    match pc {
      case AtSetNX => if x.setnx.Fails? { a := CallRedisFault(c, x.setnx.applied); }
      case AtGet => if x.get.Fails? { a := CallRedisFault(c, x.get.applied); }
      case AtDbCheck => if x.lookup { a := CallDbFault(c, false); }
      case AtInsert => if x.insert { a := CallDbFault(c, false); }
      case AtOutbox(_) => if x.outbox { a := CallDbFault(c, false); }
      case AtCommit(_, _) => if x.commit.Fails? { a := CallDbFault(c, x.commit.applied); }
      case AtComplete(_) => if x.cache.Fails? { a := CallRedisFault(c, x.cache.applied); }
      case AtRelease(_) => if x.release.Fails? { a := CallRedisFault(c, x.release.applied); }
      case _ =>
    }
    hide InsertBlocked;
  }

  lemma NotBlocked(s: State, c: nat, id: PayId)
    requires Alone(s, c, id) && s.calls[c].pc.AtInsert?
    ensures !InsertBlocked(s, c, id)
  {
  }

  lemma StaysAlone(s: State, c: nat, id: PayId, now: int, x: CreateFaults)
    requires Alone(s, c, id)
    ensures Alone(WithFront(s, c, SoloStep(FrontOf(s, c), c, id, now, x)), c, id)
  {
    match s.calls[c].pc
    case Fresh =>
    case AtSetNX =>
    case AtGet =>
    case AtDbCheck =>
    case AtInsert =>
    case AtOutbox(_) =>
    case AtCommit(_, _) =>
    case AtComplete(_) =>
    case AtRelease(_) =>
    case Done(_) =>
  }

  /** An undisturbed call is a run of the protocol: all that holds of runs holds of it. */
  lemma {:induction false} SoloIsRun(s: State, c: nat, id: PayId, now: int, x: CreateFaults, n: nat)
      returns (acts: seq<Action>)
    requires Alone(s, c, id)
    ensures Run(s, acts) == WithFront(s, c, Solo(FrontOf(s, c), c, id, now, x, n))
    decreases n
  {
    acts := [];
    if n > 0 {
      var a := SoloStepIsAction(s, c, id, now, x);
      hide SoloStep, Apply, Alone;
      var s1 := Apply(s, a);
      var f1 := SoloStep(FrontOf(s, c), c, id, now, x);
      var rest := SoloIsRun(s1, c, id, now, x, n - 1);
      acts := [a] + rest;
      assert acts[1..] == rest;
      assert FrontOf(s1, c) == f1;
      assert WithFront(s1, c, Solo(f1, c, id, now, x, n - 1)) == WithFront(s, c, Solo(f1, c, id, now, x, n - 1));
    } else {
      assert s.calls[c := s.calls[c]] == s.calls;
    }
  }

  lemma InsertOutcome(f: Front, c: nat, id: PayId, now: int, x: CreateFaults, n: nat)
    requires f.call.pc == AtInsert && f.call.terms.key !in f.db.index && n >= 6
    ensures var g := Solo(f, c, id, now, x, n);
            var p := Payment(id, f.call.terms, PENDING);
            var executed := !x.insert && !x.outbox;
            && g.db == (if executed && TakesEffect(x.commit) then Committed(f.db, p, [CreatedRow(p, now)]) else f.db)
            && g.call.pc == Done(if executed && x.commit.Works? then Returned(p) else Refused(DbError))
            && g.redis == (if executed && x.commit.Works?
                           then (if TakesEffect(x.cache) then f.redis[f.call.terms.key := Completed(p)] else f.redis)
                           else (if TakesEffect(x.release) then f.redis - {f.call.terms.key} else f.redis))
  {
    var g, k := SoloStep(f, c, id, now, x), n - 1;
    var p := Payment(id, f.call.terms, PENDING);
    if !x.insert {
      g, k := SoloStep(g, c, id, now, x), k - 1;
      assert Solo(f, c, id, now, x, n) == Solo(g, c, id, now, x, k);
      if !x.outbox {
        assert g.call.pc == AtCommit(p, [CreatedRow(p, now)]);
        g, k := SoloStep(g, c, id, now, x), k - 1;
        assert Solo(f, c, id, now, x, n) == Solo(g, c, id, now, x, k);
      }
    }
    assert g.call.pc == if !x.insert && !x.outbox && x.commit.Works? then AtComplete(p) else AtRelease(DbError);
    g, k := SoloStep(g, c, id, now, x), k - 1;
    assert Solo(f, c, id, now, x, n) == Solo(g, c, id, now, x, k);
    DoneStays(g, c, id, now, x, k);
  }

  lemma CheckOutcome(f: Front, c: nat, id: PayId, now: int, x: CreateFaults, n: nat)
    requires TableOk(f.db) && f.call.pc == AtDbCheck && n >= 7
    ensures var g := Solo(f, c, id, now, x, n);
            var t := f.call.terms;
            var p := Payment(id, t, PENDING);
            var executed := !x.lookup && t.key !in f.db.index && !x.insert && !x.outbox;
            && g.db == (if executed && TakesEffect(x.commit) then Committed(f.db, p, [CreatedRow(p, now)]) else f.db)
            && g.call.pc == Done(
                 if x.lookup then Refused(DbError)
                 else if t.key in f.db.index then
                   (if f.db.terms[f.db.index[t.key]] == t then Returned(Row(f.db, f.db.index[t.key])) else Refused(Mismatch))
                 else if executed && x.commit.Works? then Returned(p) else Refused(DbError))
            && g.redis == (
                 if x.lookup then f.redis
                 else if t.key in f.db.index then
                   (if f.db.terms[f.db.index[t.key]] == t && TakesEffect(x.cache)
                    then f.redis[t.key := Completed(Row(f.db, f.db.index[t.key]))] else f.redis)
                 else if executed && x.commit.Works?
                 then (if TakesEffect(x.cache) then f.redis[t.key := Completed(p)] else f.redis)
                 else (if TakesEffect(x.release) then f.redis - {t.key} else f.redis))
  {
    var g, k := SoloStep(f, c, id, now, x), n - 1;
    if !x.lookup && f.call.terms.key !in f.db.index {
      InsertOutcome(g, c, id, now, x, k);
    } else {
      if g.call.pc.AtComplete? {
        g, k := SoloStep(g, c, id, now, x), k - 1;
      }
      DoneStays(g, c, id, now, x, k);
    }
  }

  /** Redis answers: the record was there, and both commands worked. */
  predicate Answered(redis: map<Key, Record>, k: Key, x: CreateFaults) {
    k in redis && x.setnx.Works? && x.get.Works?
  }

  /**
   What one undisturbed CreatePayment answers, under every combination of faults.
   It refuses a request without key or account, between equal accounts, or of no
   positive amount.  The Redis record decides if it can be read, then the table.
   A new payment has the request's own fields, in dollars by default, and is
   returned exactly when all its statements execute and COMMIT succeeds.
   */
  lemma CreatePaymentOutcome(db: Tables, redis: map<Key, Record>, req: Terms, c: nat, id: PayId, now: int, x: CreateFaults)
    requires TableOk(db)
    ensures var g := Solo(Begin(db, redis, req), c, id, now, x, ENOUGH);
            var t := Terms(req.key, req.source, req.target, req.amount, if req.currency == "" then "USD" else req.currency);
            g.call.pc == Done(
              if req.key == "" || req.source == "" || req.target == "" || req.source == req.target || req.amount <= 0
              then Refused(BadRequest)
              else if req.key in redis && x.setnx == Works && x.get == Works then
                (match redis[req.key]
                 case InFlight(hash, _) => Refused(if hash != t then KeyConflict else BeingProcessed)
                 case Completed(q) => Returned(q))
              else if x.lookup then Refused(DbError)
              else if req.key in db.index then
                (var there := db.index[req.key];
                 if db.terms[there] == t then Returned(Payment(there, t, db.status[there])) else Refused(Mismatch))
              else if x.insert || x.outbox || x.commit != Works then Refused(DbError)
              else Returned(Payment(id, t, PENDING)))
  {
    SoloEnds(db, redis, req, c, id, now, x);
  }

  /**
   What it writes.  The tables gain the payment and its outbox row exactly when the
   request is valid, Redis does not answer it, the key is unused, all statements
   execute and COMMIT takes effect.
   */
  lemma CreatePaymentTables(db: Tables, redis: map<Key, Record>, req: Terms, c: nat, id: PayId, now: int, x: CreateFaults)
    requires TableOk(db)
    ensures var g := Solo(Begin(db, redis, req), c, id, now, x, ENOUGH);
            var t := Terms(req.key, req.source, req.target, req.amount, if req.currency == "" then "USD" else req.currency);
            var stores := && req.key != "" && req.source != "" && req.target != "" && req.source != req.target && req.amount > 0
                          && !(req.key in redis && x.setnx == Works && x.get == Works)
                          && !x.lookup && req.key !in db.index && !x.insert && !x.outbox && x.commit != Fails(false);
            if stores then
              && g.db.terms == db.terms[id := t] && g.db.status == db.status[id := PENDING] && g.db.index == db.index[req.key := id]
              && g.db.outbox == db.outbox + [OutboxRow(id, Created(id, t, PENDING), now, false)]
            else g.db == db
  {
    SoloEnds(db, redis, req, c, id, now, x);
  }

  /**
   What it leaves in Redis: its reservation, if SET NX took effect on a free key
   and nothing followed; the payment, if one was found or stored and SET took effect;
   nothing, if its transaction failed and DEL took effect.
   */
  lemma CreatePaymentRecord(db: Tables, redis: map<Key, Record>, req: Terms, c: nat, id: PayId, now: int, x: CreateFaults)
    requires TableOk(db)
    ensures var g := Solo(Begin(db, redis, req), c, id, now, x, ENOUGH);
            var t := Terms(req.key, req.source, req.target, req.amount, if req.currency == "" then "USD" else req.currency);
            var begun := if req.key !in redis && x.setnx != Fails(false) then redis[req.key := InFlight(t, c)] else redis;
            g.redis ==
              if req.key == "" || req.source == "" || req.target == "" || req.source == req.target || req.amount <= 0
              then redis
              else if (req.key in redis && x.setnx == Works && x.get == Works) || x.lookup then begun
              else if req.key in db.index then
                (var there := db.index[req.key];
                 if db.terms[there] == t && x.cache != Fails(false)
                 then begun[req.key := Completed(Payment(there, t, db.status[there]))] else begun)
              else if !x.insert && !x.outbox && x.commit == Works then
                (if x.cache != Fails(false) then begun[req.key := Completed(Payment(id, t, PENDING))] else begun)
              else if x.release != Fails(false) then begun - {req.key} else begun
  {
    SoloEnds(db, redis, req, c, id, now, x);
  }

  lemma SoloEnds(db: Tables, redis: map<Key, Record>, req: Terms, c: nat, id: PayId, now: int, x: CreateFaults)
    requires TableOk(db)
    ensures var g := Solo(Begin(db, redis, req), c, id, now, x, ENOUGH);
            var t := Defaulted(req);
            var p := Payment(id, t, PENDING);
            var begun := if t.key !in redis && TakesEffect(x.setnx) then redis[t.key := InFlight(t, c)] else redis;
            var executed := !x.lookup && t.key !in db.index && !x.insert && !x.outbox;
            if !Valid(req) then g.db == db && g.redis == redis && g.call.pc == Done(Refused(BadRequest))
            else if Answered(redis, t.key, x) then
              && g.db == db && g.redis == begun
              && g.call.pc == Done(match redis[t.key]
                                   case InFlight(hash, _) => Refused(if hash != t then KeyConflict else BeingProcessed)
                                   case Completed(q) => Returned(q))
            else
              && g.db == (if executed && TakesEffect(x.commit) then Committed(db, p, [CreatedRow(p, now)]) else db)
              && g.call.pc == Done(
                   if x.lookup then Refused(DbError)
                   else if t.key in db.index then
                     (if db.terms[db.index[t.key]] == t then Returned(Row(db, db.index[t.key])) else Refused(Mismatch))
                   else if executed && x.commit.Works? then Returned(p) else Refused(DbError))
              && g.redis == (
                   if x.lookup then begun
                   else if t.key in db.index then
                     (if db.terms[db.index[t.key]] == t && TakesEffect(x.cache)
                      then begun[t.key := Completed(Row(db, db.index[t.key]))] else begun)
                   else if executed && x.commit.Works?
                   then (if TakesEffect(x.cache) then begun[t.key := Completed(p)] else begun)
                   else (if TakesEffect(x.release) then begun - {t.key} else begun))
  {
    var g := SoloStep(Begin(db, redis, req), c, id, now, x);
    if !Valid(req) {
      DoneStays(g, c, id, now, x, ENOUGH - 1);
    } else {
      var h, k := FirstTier(g, c, id, now, x, ENOUGH - 1);
      hide SoloStep;
      if Answered(redis, Defaulted(req).key, x) {
        DoneStays(h, c, id, now, x, k);
      } else {
        CheckOutcome(h, c, id, now, x, k);
      }
    }
  }

  lemma FirstTier(f: Front, c: nat, id: PayId, now: int, x: CreateFaults, n: nat) returns (g: Front, k: nat)
    requires f.call.pc == AtSetNX && n >= 9
    ensures Solo(f, c, id, now, x, n) == Solo(g, c, id, now, x, k)
    ensures k >= 7 && g.db == f.db && g.call.terms == f.call.terms
    ensures var t := f.call.terms;
            g.redis == if t.key !in f.redis && TakesEffect(x.setnx) then f.redis[t.key := InFlight(t, c)] else f.redis
    ensures var t := f.call.terms;
            g.call.pc == if !Answered(f.redis, t.key, x) then AtDbCheck
                         else match f.redis[t.key]
                           case InFlight(hash, _) => Done(Refused(if hash != t then KeyConflict else BeingProcessed))
                           case Completed(q) => Done(Returned(q))
  {
    g, k := SoloStep(f, c, id, now, x), n - 1;
    if g.call.pc.AtGet? {
      g, k := SoloStep(g, c, id, now, x), k - 1;
    }
  }

  /** With a new id the tables stay sound, ready for the next call. */
  lemma CreatePaymentKeepsTables(db: Tables, redis: map<Key, Record>, req: Terms, c: nat, id: PayId, now: int, x: CreateFaults)
    requires TableOk(db) && OutboxOk(db.terms, db.outbox) && IsPaymentRef(id) && id !in db.terms
    ensures var g := Solo(Begin(db, redis, req), c, id, now, x, ENOUGH);
            TableOk(g.db) && OutboxOk(g.db.terms, g.db.outbox)
  {
    SoloEnds(db, redis, req, c, id, now, x);
    hide Solo;
    if Valid(req) && Defaulted(req).key !in db.index {
      CommitKeepsTables(db, Payment(id, Defaulted(req), PENDING), now);
    }
  }

  // ---------------------------------------------------------------------------
  // One fraud result on its own
  // ---------------------------------------------------------------------------

  /** What one ProcessFraudResult meets: failed lookup, healthy account service, lost reply, status and cache write. */
  datatype SettleFaults = SettleFaults(lookup: bool, healthy: bool, replyLost: bool, write: Net, cache: Net)

  /** The HTTP call, under a breaker that admits it or not. */
  function Decide(b: Back, t: Terms, admitted: bool, x: SettleFaults): Back {
    if !b.att.phase.Calling? then b
    else if !admitted then SagaAction(b, t, BreakerOpen(0))
    else
      var served := SagaAction(SagaAction(b, t, SagaStep(0)), t, Serve(0, x.healthy));
      SagaAction(served, t, if x.replyLost then ReplyLost(0) else SagaStep(0))
  }

  function WriteStep(b: Back, t: Terms, n: Net): Back {
    SagaAction(b, t, if n.Fails? then SagaFault(0, n.applied) else SagaStep(0))
  }

  function SoloSettle(b: Back, t: Terms, admitted: bool, x: SettleFaults): Back {
    var written := WriteStep(Decide(b, t, admitted, x), t, x.write);
    if written.att.phase.Caching? then WriteStep(written, t, x.cache) else written
  }

  function Arrived(db: Tables, redis: map<Key, Record>, money: Db, id: PayId, approved: bool): Back {
    Back(db.status, redis, [], money, NewAttempt(id, if approved then Calling else Rejecting))
  }

  /** Where the HTTP call leaves a pending payment. */
  lemma DecideOutcome(b: Back, t: Terms, admitted: bool, x: SettleFaults)
    requires b.att == NewAttempt(b.att.pay, b.att.phase) && (b.att.phase.Calling? || b.att.phase.Rejecting?)
    ensures var r := TransferOf(b.att.pay, t);
            var moved := b.att.phase.Calling? && admitted && x.healthy && Accepts(b.money, r);
            var d := Decide(b, t, admitted, x);
            && d.money == (if moved then Move(b.money, r) else b.money)
            && d.status == b.status && d.redis == b.redis && d.att.pay == b.att.pay
            && d.att.phase == (if b.att.phase.Rejecting? then Rejecting else Decided(moved && !x.replyLost))
  {
  }

  /** The status write. */
  lemma StatusWritten(d: Back, t: Terms, n: Net)
    requires d.att.phase.Decided? || d.att.phase.Rejecting?
    ensures var p := Payment(d.att.pay, t, Verdict(d.att.phase));
            var b := WriteStep(d, t, n);
            && b.money == d.money && b.redis == d.redis && b.att.pay == d.att.pay
            && b.status == (if TakesEffect(n) then d.status[p.id := p.status] else d.status)
            && b.att.phase == if n.Works? then Caching(p) else Ended
  {
  }

  /** The cache write. */
  lemma CacheWritten(d: Back, t: Terms, n: Net)
    requires d.att.phase.Caching?
    ensures var p := d.att.phase.settled;
            var b := WriteStep(d, t, n);
            && b.money == d.money && b.status == d.status && b.att.phase == Publishing(p)
            && b.redis == if TakesEffect(n) then d.redis[t.key := Completed(p)] else d.redis
  {
  }

  lemma SettleOutcome(db: Tables, redis: map<Key, Record>, money: Db, id: PayId, t: Terms,
                      approved: bool, admitted: bool, x: SettleFaults)
    ensures var r := TransferOf(id, t);
            var b := SoloSettle(Arrived(db, redis, money, id, approved), t, admitted, x);
            var moved := approved && admitted && x.healthy && Accepts(money, r);
            var p := Payment(id, t, if moved && !x.replyLost then SUCCESS else FAILED);
            && b.money == (if moved then Move(money, r) else money)
            && b.status == (if TakesEffect(x.write) then db.status[id := p.status] else db.status)
            && b.redis == (if x.write.Works? && TakesEffect(x.cache) then redis[t.key := Completed(p)] else redis)
            && b.att.phase == if x.write.Works? then Publishing(p) else Ended
  {
    var b := Arrived(db, redis, money, id, approved);
    DecideOutcome(b, t, admitted, x);
    var d := Decide(b, t, admitted, x);
    hide Decide, WriteStep;
    StatusWritten(d, t, x.write);
    if x.write.Works? {
      CacheWritten(WriteStep(d, t, x.write), t, x.cache);
    }
  }

  /**
   What one handling of a pending payment does.  The source pays the target
   exactly when the payment is approved, the breaker admits, the account service
   is healthy, and amount, accounts and balance allow it; the payment's DEBIT and
   CREDIT are booked with it.  The status says whether it was made, unless the
   reply was lost; the cache follows a status that was written.
   */
  lemma SettlingTellsTheTruth(db: Tables, redis: map<Key, Record>, money: Db, id: PayId, t: Terms,
                              approved: bool, admitted: bool, x: SettleFaults)
    ensures var b := SoloSettle(Arrived(db, redis, money, id, approved), t, admitted, x);
            var moved := approved && admitted && x.healthy
                         && t.amount > 0 && t.source != "" && t.target != "" && t.source != t.target
                         && t.source in money.rows && t.target in money.rows && money.rows[t.source].balance >= t.amount;
            var p := Payment(id, t, if moved && !x.replyLost then SUCCESS else FAILED);
            && (if moved then
                  var source, target := money.rows[t.source], money.rows[t.target];
                  && b.money.rows == money.rows[t.source := Account(source.balance - t.amount, source.version + 1)]
                                               [t.target := Account(target.balance + t.amount, target.version + 1)]
                  && b.money.ledger == money.ledger + [Entry(t.source, t.amount, Debit, id), Entry(t.target, t.amount, Credit, id)]
                else b.money == money)
            && b.status == (if x.write == Fails(false) then db.status else db.status[id := p.status])
            && b.redis == (if x.write == Works && x.cache != Fails(false) then redis[t.key := Completed(p)] else redis)
            && b.att.phase == if x.write == Works then Publishing(p) else Ended
  {
    SettleOutcome(db, redis, money, id, t, approved, admitted, x);
    hide SoloSettle;
  }

  lemma MoveShows(money: Db, r: Request)
    ensures Accepts(money, r) ==> Move(money, r) != money
  {
    assert Accepts(money, r) ==> |Move(money, r).ledger| == |money.ledger| + 2;
  }

  /** The announcement that follows. */
  lemma SettledIsAnnounced(b: Back, t: Terms, net: Net)
    requires b.att.phase.Publishing?
    ensures var p, b' := b.att.phase.event, WriteStep(b, t, net);
            && b'.results == (if net == Fails(false) then b.results else b.results + [ResultEvent(p.id, p.terms, p.status)])
            && b'.att.phase == Ended && b'.money == b.money && b'.status == b.status && b'.redis == b.redis
  {
  }

  class Service {
    const manager: Manager
    const breaker: B.CircuitBreaker
    var db: Tables
    var money: Db

    constructor (manager: Manager, breaker: B.CircuitBreaker, money: Db)
      ensures this.manager == manager && this.breaker == breaker
      ensures db == Tables(map[], map[], map[], []) && this.money == money && TableOk(db)
    {
      this.manager, this.breaker, this.money := manager, breaker, money;
      db := Tables(map[], map[], map[], []);
    }

    /** CreatePayment: tables, Redis and answer are where the protocol's steps lead. */
    method CreatePayment(req: Terms, owner: nat, id: PayId, now: int, x: CreateFaults) returns (r: Outcome)
      requires TableOk(db)
      modifies this`db, manager
      ensures Ends(Solo(Begin(old(db), old(manager.records), req), owner, id, now, x, ENOUGH), db, manager.records, r)
    {
      ghost var f, n := Begin(db, manager.records, req), ENOUGH;
      f, n := SoloStep(f, owner, id, now, x), n - 1;
      if !Valid(req) {
        DoneStays(f, owner, id, now, x, n);
        return Refused(BadRequest);
      }
      var t := Defaulted(req);
      var key := t.key;
      ghost var taken := key in manager.records;
      f, n := SoloStep(f, owner, id, now, x), n - 1;
      if f.call.pc.AtGet? {
        f, n := SoloStep(f, owner, id, now, x), n - 1;
      }
      var started := manager.Start(key, t, owner, x.setnx, x.get);
      assert f.redis == manager.records && f.db == db && f.call.terms == t;
      match started {
        case ErrInFlight =>
          DoneStays(f, owner, id, now, x, n);
          return Refused(BeingProcessed);
        case ErrConflict =>
          DoneStays(f, owner, id, now, x, n);
          return Refused(KeyConflict);
        case Existing(p) =>
          DoneStays(f, owner, id, now, x, n);
          return Returned(p);
        case Reserved =>
        case ErrRedis =>
      }
      assert f.call.pc == AtDbCheck;
      r := CheckAndInsert(f, t, owner, id, now, x, n);
    }

    /** From the second-tier check on. */
    method CheckAndInsert(ghost f0: Front, t: Terms, owner: nat, id: PayId, now: int, x: CreateFaults, ghost n0: nat)
        returns (r: Outcome)
      requires TableOk(db) && n0 >= 7
      requires f0.db == db && f0.redis == manager.records && f0.call.pc == AtDbCheck && f0.call.terms == t
      modifies this`db, manager
      ensures Ends(Solo(f0, owner, id, now, x, n0), db, manager.records, r)
    {
      ghost var f, n := SoloStep(f0, owner, id, now, x), n0 - 1;
      if x.lookup {
        DoneStays(f, owner, id, now, x, n);
        return Refused(DbError);
      }
      if t.key in db.index {
        var p := Row(db, db.index[t.key]);
        if p.terms != t {
          DoneStays(f, owner, id, now, x, n);
          return Refused(Mismatch);
        }
        f, n := SoloStep(f, owner, id, now, x), n - 1;
        DoneStays(f, owner, id, now, x, n);
        manager.Complete(t.key, p, x.cache);
        return Returned(p);
      }
      assert f.call.pc == AtInsert;
      r := InsertPayment(f, t, owner, id, now, x, n);
    }

    /** The transaction of CreatePayment; if it fails the key is released. */
    method InsertPayment(ghost f0: Front, t: Terms, owner: nat, id: PayId, now: int, x: CreateFaults, ghost n0: nat)
        returns (r: Outcome)
      requires n0 >= 6 && t.key !in db.index
      requires f0.db == db && f0.redis == manager.records && f0.call.pc == AtInsert && f0.call.terms == t
      modifies this`db, manager
      ensures Ends(Solo(f0, owner, id, now, x, n0), db, manager.records, r)
    {
      ghost var f, n := SoloStep(f0, owner, id, now, x), n0 - 1;
      var p := Payment(id, t, PENDING);
      if !x.insert {
        f, n := SoloStep(f, owner, id, now, x), n - 1;
        assert Solo(f0, owner, id, now, x, n0) == Solo(f, owner, id, now, x, n);
        if !x.outbox {
          f, n := SoloStep(f, owner, id, now, x), n - 1;
          assert Solo(f0, owner, id, now, x, n0) == Solo(f, owner, id, now, x, n);
          if TakesEffect(x.commit) {
            db := Committed(db, p, [CreatedRow(p, now)]);
          }
          if x.commit.Works? {
            assert f.call.pc == AtComplete(p) && f.db == db;
            f, n := SoloStep(f, owner, id, now, x), n - 1;
            assert Solo(f0, owner, id, now, x, n0) == Solo(f, owner, id, now, x, n);
            DoneStays(f, owner, id, now, x, n);
            manager.Complete(t.key, p, x.cache);
            return Returned(p);
          }
        }
      }
      assert f.call.pc == AtRelease(DbError) && f.db == db;
      f, n := SoloStep(f, owner, id, now, x), n - 1;
      assert Solo(f0, owner, id, now, x, n0) == Solo(f, owner, id, now, x, n);
      DoneStays(f, owner, id, now, x, n);
      manager.Release(t.key, x.release);
      return Refused(DbError);
    }

    /**
     ProcessFraudResult.  A settled payment is returned untouched; a pending one
     ends where the protocol's steps lead, SettlingTellsTheTruth says where.
     */
    method ProcessFraudResult(id: PayId, approved: bool, entered: int, left: int, x: SettleFaults)
        returns (p: Payment, err: bool)
      requires TableOk(db)
      modifies this, manager, breaker
      ensures db == old(db).(status := db.status) && TableOk(db)
      ensures x.lookup || id !in old(db.terms) ==>
                err && db == old(db) && money == old(money) && manager.records == old(manager.records)
      ensures !x.lookup && id in old(db.terms) && old(db.status)[id] != PENDING ==>
                !err && p == Payment(id, old(db.terms)[id], old(db.status)[id]) && db == old(db) && money == old(money)
                && manager.records == old(manager.records)
      ensures !x.lookup && id in old(db.terms) && old(db.status)[id] == PENDING ==>
                var admitted := B.Admits(breaker.cfg, old(breaker.View()), entered);
                var b := SoloSettle(Arrived(old(db), old(manager.records), old(money), id, approved),
                                    db.terms[id], admitted, x);
                && db.status == b.status && money == b.money && manager.records == b.redis
                && (err <==> x.write.Fails?)
                && (!err ==> b.att.phase == Publishing(p) && id in db.status
                             && p == Payment(id, db.terms[id], db.status[id]) && p.status != PENDING)
      ensures breaker.View() ==
                if x.lookup || id !in old(db.terms) || old(db.status)[id] != PENDING || !approved then old(breaker.View())
                else
                  var v := B.Next(breaker.cfg, old(breaker.View()), B.Try(entered));
                  if B.Admits(breaker.cfg, old(breaker.View()), entered)
                  then B.Next(breaker.cfg, v, B.Done(left, money == old(money) || x.replyLost)) else v
    {
      if x.lookup || id !in db.terms {
        p, err := Payment(id, Terms("", "", "", 0, ""), PENDING), true;
        return;
      }
      p, err := Row(db, id), false;
      if p.status != PENDING {
        return;
      }
      SettleOutcome(db, manager.records, money, id, p.terms, approved,
                    B.Admits(breaker.cfg, breaker.View(), entered), x);
      MoveShows(money, TransferOf(id, p.terms));
      hide SoloSettle, Accepts, Move, TableOk, B.Next, B.Admits, TransferOf, Arrived;
      var final := FAILED;
      if approved {
        var ok := CallAccountService(TransferOf(id, p.terms), entered, left, x.healthy, x.replyLost);
        final := if ok then SUCCESS else FAILED;
      }
      if TakesEffect(x.write) {
        db := db.(status := db.status[id := final]);
      }
      if x.write.Fails? {
        err := true;
        return;
      }
      p := p.(status := final);
      manager.Complete(p.terms.key, p, x.cache);
    }

    /** The HTTP call under the circuit breaker; the transfer is one move (module Composition). */
    method CallAccountService(r: Request, entered: int, left: int, healthy: bool, replyLost: bool) returns (ok: bool)
      modifies this`money, breaker
      ensures var admitted := B.Admits(breaker.cfg, old(breaker.View()), entered);
              var moved := admitted && healthy && Accepts(old(money), r);
              && money == (if moved then Move(old(money), r) else old(money))
              && (ok <==> moved && !replyLost)
              && breaker.View() ==
                 (var v := B.Next(breaker.cfg, old(breaker.View()), B.Try(entered));
                  if admitted then B.Next(breaker.cfg, v, B.Done(left, !ok)) else v)
    {
      ok := false;
      var admitted := breaker.Before(entered);
      if !admitted {
        return;
      }
      if healthy && Accepts(money, r) {
        money := Move(money, r);
        ok := !replyLost;
      }
      breaker.AfterCall(left, !ok);
    }
  }
}
