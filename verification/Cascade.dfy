/**
 Events that cause events.  The payments topic carries both PaymentCreated and
 result events, and the fraud service reads it all: it evaluates what is
 PENDING and publishes a fraud result; the saga handles that and publishes a
 result event back on the payments topic.
 */
module Cascade {
  import opened Payments
  import opened PaymentRows
  import opened Faults
  import opened Arithmetic
  import opened Accounts
  import PaymentService
  import PaymentSaga
  import V = Velocity
  import W = Window
  import PaymentRelay

  /** On the payments topic; the status is the text that the fraud service compares. */
  datatype Event = Event(id: PayId, status: string)

  /** Messages not delivered yet.  `evaluations` counts the fraud evaluations made so far. */
  datatype Topics = Topics(events: seq<Event>, fraud: seq<FraudResult>, status: map<PayId, Status>, evaluations: nat)

  /**
   One delivery.  What its handler publishes will itself be delivered `copies`
   times: 0 if publishing fails, more than once if offsets are not committed.
   */
  datatype Delivery =
    | ToFraud(i: nat, approved: bool, copies: nat)
    | ToSaga(i: nat, transferred: bool, write: Net, copies: nat)

  predicate Evaluable(e: Event) {
    e.status == "" || e.status == "PENDING"
  }

  function Text(s: Status): string {
    match s
    case PENDING => "PENDING"
    case SUCCESS => "SUCCESS"
    case FAILED => "FAILED"
  }

  function Copies<T>(x: T, n: nat): seq<T> {
    seq(n, _ => x)
  }

  function Without<T>(s: seq<T>, i: nat): seq<T>
    requires i < |s|
  {
    s[..i] + s[i + 1..]
  }

  function Evaluate(s: Topics, i: nat, approved: bool, copies: nat): Topics
    requires i < |s.events|
  {
    var rest := s.(events := Without(s.events, i));
    if !Evaluable(s.events[i]) then rest
    else rest.(fraud := s.fraud + Copies(FraudResult(s.events[i].id, approved), copies),
               evaluations := s.evaluations + 1)
  }

  function Handle(s: Topics, i: nat, transferred: bool, write: Net, copies: nat): Topics
    requires i < |s.fraud|
  {
    var f := s.fraud[i];
    var rest := s.(fraud := Without(s.fraud, i));
    if f.pay !in s.status then rest
    else if s.status[f.pay] != PENDING then
      rest.(events := s.events + Copies(Event(f.pay, Text(s.status[f.pay])), copies))
    else
      var final := if f.approved && transferred then SUCCESS else FAILED;
      var written := if TakesEffect(write) then rest.(status := s.status[f.pay := final]) else rest;
      if write.Works? then written.(events := s.events + Copies(Event(f.pay, Text(final)), copies)) else written
  }

  predicate Enabled(s: Topics, d: Delivery, most: nat) {
    d.copies <= most && if d.ToFraud? then d.i < |s.events| else d.i < |s.fraud|
  }

  function Apply(s: Topics, d: Delivery): Topics
    requires Enabled(s, d, d.copies)
  {
    match d
    case ToFraud(i, approved, copies) => Evaluate(s, i, approved, copies)
    case ToSaga(i, transferred, write, copies) => Handle(s, i, transferred, write, copies)
  }

  /** A run of deliveries, each of a message that is there. */
  predicate Runs(s: Topics, ds: seq<Delivery>, most: nat)
    decreases |ds|
  {
    ds != [] ==> Enabled(s, ds[0], most) && Runs(Apply(s, ds[0]), ds[1..], most)
  }

  function After(s: Topics, ds: seq<Delivery>, most: nat): Topics
    requires Runs(s, ds, most)
    decreases |ds|
  {
    if ds == [] then s else After(Apply(s, ds[0]), ds[1..], most)
  }

  // ---------------------------------------------------------------------------
  // These deliveries are those of the payment protocol
  // ---------------------------------------------------------------------------

  /** The fraud service evaluates an event without status or PENDING, for its own payment, and passes over any other. */
  lemma EvaluatedExactlyIfNew(s: Topics, i: nat, approved: bool, copies: nat)
    requires i < |s.events|
    ensures var e, s' := s.events[i], Evaluate(s, i, approved, copies);
            && s'.events == s.events[..i] + s.events[i + 1..] && s'.status == s.status
            && (if e.status == "" || e.status == "PENDING" then
                  s'.evaluations == s.evaluations + 1 && s'.fraud == s.fraud + seq(copies, _ => FraudResult(e.id, approved))
                else s'.evaluations == s.evaluations && s'.fraud == s.fraud)
  {
  }

  /** In the protocol, too, the verdict on a PaymentCreated event is about its own payment. */
  lemma CreatedAsInProtocol(s: Topics, i: nat, approved: bool, p: Payments.State, m: nat)
    requires i < |s.events| && m < |p.bus.created| && p.bus.fraud == s.fraud
    requires p.bus.created[m].body.id == s.events[i].id && s.events[i].status == "PENDING"
    ensures EvaluateMessage(p, m, approved) == p.(bus := p.bus.(fraud := Evaluate(s, i, approved, 1).fraud))
    ensures EvaluateMessage(p, m, approved).bus.fraud == p.bus.fraud + [FraudResult(s.events[i].id, approved)]
  {
    assert Copies(FraudResult(s.events[i].id, approved), 1) == [FraudResult(s.events[i].id, approved)];
  }

  /** The texts of an announced status: never one that is evaluated. */
  lemma ResultTexts(s: Topics, i: nat, transferred: bool, copies: nat)
    requires i < |s.fraud| && s.fraud[i].pay in s.status
    ensures var f, s' := s.fraud[i], Handle(s, i, transferred, Works, copies);
            var final := if s.status[f.pay] != PENDING then s.status[f.pay]
                         else if f.approved && transferred then SUCCESS else FAILED;
            && s'.status == s.status[f.pay := final]
            && s'.events == s.events + seq(copies, _ => Event(f.pay, if final == SUCCESS then "SUCCESS" else "FAILED"))
  {
  }

  /** In every run of the protocol the evaluable events are the PaymentCreated ones, and never a result. */
  lemma OnlyCreatedAreEvaluable(requests: seq<Terms>, workers: nat, money: Db, acts: seq<Action>)
    requires PaymentSaga.NoPaymentsBooked(money)
    ensures var s := Run(Init(requests, workers, money), acts);
            && (forall m :: m in s.bus.created ==> Evaluable(Event(m.body.id, Text(m.body.status))))
            && (forall e :: e in s.bus.results ==> !Evaluable(Event(e.id, Text(e.status))))
  {
    PaymentRelay.ProcessedMeansPublished(requests, workers, money, acts);
    PaymentSaga.AnnouncementsAgree(requests, workers, money, acts);
  }

  /** Handling the result of a pending payment: status and announcement are those of the saga's steps. */
  lemma PendingAsInProtocol(s: Topics, i: nat, copies: nat, db: Tables, redis: map<Key, Record>, money: Db, t: Terms,
                            admitted: bool, x: PaymentService.SettleFaults)
    requires i < |s.fraud| && s.fraud[i].pay in s.status && s.status[s.fraud[i].pay] == PENDING && db.status == s.status
    ensures var f := s.fraud[i];
            var transferred := admitted && x.healthy && Accepts(money, TransferOf(f.pay, t)) && !x.replyLost;
            var s' := Handle(s, i, transferred, x.write, copies);
            var b := PaymentService.SoloSettle(PaymentService.Arrived(db, redis, money, f.pay, f.approved), t, admitted, x);
            && s'.status == b.status
            && s'.events == s.events + (if b.att.phase.Publishing?
                                        then Copies(Event(f.pay, Text(b.att.phase.event.status)), copies) else [])
  {
    var f := s.fraud[i];
    PaymentService.SettleOutcome(db, redis, money, f.pay, t, f.approved, admitted, x);
    hide PaymentService.SoloSettle, Accepts, Move;
  }

  /** In the protocol a result of a pending payment is taken up like that: an approval by asking for the transfer. */
  lemma PendingIsTakenUp(p: Payments.State, m: nat)
    requires m < |p.bus.fraud| && p.bus.fraud[m].pay in p.db.terms && p.bus.fraud[m].pay in p.db.status
    requires p.db.status[p.bus.fraud[m].pay] == PENDING && !BeingHandled(p.attempts, p.bus.fraud[m].pay)
    ensures var f := p.bus.fraud[m];
            && DeliverResult(p, m) ==
               p.(attempts := p.attempts + [PaymentService.Arrived(p.db, p.redis, p.money, f.pay, f.approved).att])
            && PaymentService.Arrived(p.db, p.redis, p.money, f.pay, f.approved).att.phase == if f.approved then Calling else Rejecting
  {
  }

  /** The result of a settled payment is announced again, as in the protocol. */
  lemma SettledAsInProtocol(s: Topics, i: nat, transferred: bool, write: Net, copies: nat, p: Payments.State, m: nat)
    requires i < |s.fraud| && m < |p.bus.fraud| && p.bus.fraud[m] == s.fraud[i] && p.db.status == s.status
    requires s.fraud[i].pay in p.db.terms && s.fraud[i].pay in s.status && s.status[s.fraud[i].pay] != PENDING
    requires !BeingHandled(p.attempts, s.fraud[i].pay)
    ensures var row, s' := Row(p.db, s.fraud[i].pay), Handle(s, i, transferred, write, copies);
            && DeliverResult(p, m).attempts == p.attempts + [NewAttempt(row.id, Publishing(row))]
            && s'.status == s.status && s'.events == s.events + Copies(Event(row.id, Text(row.status)), copies)
  {
  }

  // ---------------------------------------------------------------------------
  // A result event is never evaluated
  // ---------------------------------------------------------------------------

  function ToEvaluate(events: seq<Event>): nat {
    if events == [] then 0
    else ToEvaluate(events[..|events| - 1]) + (if Evaluable(events[|events| - 1]) then 1 else 0)
  }

  lemma {:induction false} ToEvaluateAppend(a: seq<Event>, b: seq<Event>)
    ensures ToEvaluate(a + b) == ToEvaluate(a) + ToEvaluate(b)
  {
    if b == [] {
      assert a + b == a;
    } else {
      var n := |b| - 1;
      ToEvaluateAppend(a, b[..n]);
      assert (a + b)[..|a + b| - 1] == a + b[..n];
    }
  }

  lemma {:induction false} ToEvaluateWithout(events: seq<Event>, i: nat)
    requires i < |events|
    ensures ToEvaluate(Without(events, i)) + (if Evaluable(events[i]) then 1 else 0) == ToEvaluate(events)
  {
    var n := |events| - 1;
    if i == n {
      assert Without(events, i) == events[..n];
    } else {
      ToEvaluateWithout(events[..n], i);
      var fewer := Without(events, i);
      assert fewer[..n - 1] == Without(events[..n], i) && fewer[n - 1] == events[n];
    }
  }

  lemma {:induction false} ResultsAreNotEvaluated(id: PayId, s: Status, n: nat)
    requires s != PENDING
    ensures ToEvaluate(Copies(Event(id, Text(s)), n)) == 0
  {
    if n > 0 {
      ResultsAreNotEvaluated(id, s, n - 1);
      assert Copies(Event(id, Text(s)), n)[..n - 1] == Copies(Event(id, Text(s)), n - 1);
    }
  }

  lemma DeliveryKeepsEvaluations(s: Topics, d: Delivery)
    requires Enabled(s, d, d.copies)
    ensures Apply(s, d).evaluations + ToEvaluate(Apply(s, d).events) == s.evaluations + ToEvaluate(s.events)
  {
    match d
    case ToFraud(i, _, _) => ToEvaluateWithout(s.events, i);
    case ToSaga(i, _, _, copies) =>
      var s' := Apply(s, d);
      var f := s.fraud[i];
      if f.pay in s'.status && s'.status[f.pay] != PENDING {
        var sent := Copies(Event(f.pay, Text(s'.status[f.pay])), copies);
        ResultsAreNotEvaluated(f.pay, s'.status[f.pay], copies);
        ToEvaluateAppend(s.events, sent);
        assert s'.events == s.events || s'.events == s.events + sent;
      }
  }

  /**
   Whatever is delivered, however often, the evaluations made and those still to
   come add up to the evaluable deliveries there were at the start: no result
   event ever causes another evaluation.
   */
  lemma {:induction false} EvaluationsAreConserved(s: Topics, ds: seq<Delivery>, most: nat)
    requires Runs(s, ds, most)
    ensures var s' := After(s, ds, most);
            s'.evaluations + ToEvaluate(s'.events) == s.evaluations + ToEvaluate(s.events)
    decreases |ds|
  {
    if ds != [] {
      DeliveryKeepsEvaluations(s, ds[0]);
      EvaluationsAreConserved(Apply(s, ds[0]), ds[1..], most);
    }
  }

  // ---------------------------------------------------------------------------
  // The cascade ends
  // ---------------------------------------------------------------------------

  /** Created events, fraud results and result events weigh 3, 2 and 1 if all is delivered once (`most` is 1). */
  function Measure(s: Topics, most: nat): nat {
    |s.events| + ToEvaluate(s.events) * (most * (1 + most)) + |s.fraud| * (1 + most)
  }

  lemma Distributes(i: nat, j: nat, m: nat)
    ensures (i + j) * m == i * m + j * m
  {
  }

  lemma FraudDeliveryDecreases(s: Topics, i: nat, approved: bool, copies: nat, most: nat)
    requires i < |s.events| && copies <= most
    ensures Measure(Evaluate(s, i, approved, copies), most) < Measure(s, most)
    ensures copies == most ==> Measure(Evaluate(s, i, approved, copies), most) == Measure(s, most) - 1
  {
    ToEvaluateWithout(s.events, i);
    if Evaluable(s.events[i]) {
      var s' := Evaluate(s, i, approved, copies);
      assert ToEvaluate(s.events) == ToEvaluate(s'.events) + 1;
      assert |s'.fraud| == |s.fraud| + copies && |s'.events| == |s.events| - 1;
      hide *;
      Distributes(ToEvaluate(s'.events), 1, most * (1 + most));
      Distributes(|s.fraud|, copies, 1 + most);
      MulMonotone(copies, most, 1 + most);
    }
  }

  lemma SagaDeliveryDecreases(s: Topics, i: nat, transferred: bool, write: Net, copies: nat, most: nat)
    requires i < |s.fraud| && copies <= most
    ensures Measure(Handle(s, i, transferred, write, copies), most) < Measure(s, most)
  {
    var s' := Handle(s, i, transferred, write, copies);
    DeliveryKeepsEvaluations(s, ToSaga(i, transferred, write, copies));
    assert s'.evaluations == s.evaluations && ToEvaluate(s'.events) == ToEvaluate(s.events);
    assert |s'.events| <= |s.events| + copies && |s'.fraud| == |s.fraud| - 1;
    hide Handle, ToEvaluate;
    Distributes(|s'.fraud|, 1, 1 + most);
  }

  /** No run delivers more messages than the measure of its start: the cascade ends. */
  lemma {:induction false} CascadeEnds(s: Topics, ds: seq<Delivery>, most: nat)
    requires Runs(s, ds, most)
    ensures |ds| + Measure(After(s, ds, most), most) <= Measure(s, most)
    decreases |ds|
  {
    if ds != [] {
      match ds[0] {
        case ToFraud(i, approved, copies) => FraudDeliveryDecreases(s, i, approved, copies, most);
        case ToSaga(i, transferred, write, copies) => SagaDeliveryDecreases(s, i, transferred, write, copies, most);
      }
      CascadeEnds(Apply(s, ds[0]), ds[1..], most);
    }
  }

  /** Once all is delivered, each evaluable delivery has been evaluated, exactly once. */
  lemma DrainedMeansEvaluatedOnce(s: Topics, ds: seq<Delivery>, most: nat)
    requires Runs(s, ds, most) && After(s, ds, most).events == []
    ensures After(s, ds, most).evaluations == s.evaluations + ToEvaluate(s.events)
  {
    EvaluationsAreConserved(s, ds, most);
  }

  // ---------------------------------------------------------------------------
  // The fraud service's handler
  // ---------------------------------------------------------------------------

  /** What the fraud service reads off a message of the payments topic. */
  datatype Incoming = Incoming(id: PayId, source: string, amount: int, status: string)

  class FraudConsumer {
    var results: seq<FraudResult>

    constructor ()
      ensures results == []
    {
      results := [];
    }

    /** The account whose velocity counts: the event's source or, without one, the message key. */
    method AccountOf(event: Incoming, key: string) returns (account: string)
      ensures account == if event.source == "" then key else event.source
    {
      account := event.source;
      if account == "" {
        account := key;
      }
    }

    /**
     An event without a status or PENDING is checked with the velocity window of its
     account, and its verdict published; every other event is passed over.
     */
    method Handle(event: Incoming, window: V.FraudService, now: int, later: int, redisTime: int, redis: Net, publish: Net)
        returns (approved: bool, err: bool)
      requires window.Valid() && window.ComesNext(W.Check(now, later - V.MINUTE, redisTime))
      modifies this, window
      ensures window.Valid()
      ensures event.status != "" && event.status != "PENDING" ==>
                !err && results == old(results) && window.key == old(window.key) && window.hist == old(window.hist)
      ensures event.status == "" || event.status == "PENDING" ==>
                && (approved <==>
                    event.amount <= 100_000_000 &&
                    (redis == Works ==>
                      |(set i | 0 <= i < |old(window.hist)| && old(window.hist)[i].at > later - 60_000_000_000 :: old(window.hist)[i].at)
                       + {now}| <= 10))
                && results == (if publish == Fails(false) then old(results) else old(results) + [FraudResult(event.id, approved)])
                && (err <==> publish != Works)
    {
      approved, err := false, false;
      if event.status != "" && event.status != "PENDING" {
        return;
      }
      approved := window.CheckPayment(event.amount, now, later, redisTime, redis);
      if TakesEffect(publish) {
        results := results + [FraudResult(event.id, approved)];
      }
      err := publish.Fails?;
    }
  }

  // ---------------------------------------------------------------------------
  // The saga's handler
  // ---------------------------------------------------------------------------

  class SagaConsumer {
    const service: PaymentService.Service
    var results: seq<ResultEvent>

    constructor (service: PaymentService.Service)
      ensures this.service == service && results == []
    {
      this.service, results := service, [];
    }

    /**
     A handled fraud result is announced with the payment's stored and final
     status, which the fraud service ignores; a result without a payment, a failed
     lookup and a failed status write announce nothing.
     */
    method Handle(f: FraudResult, entered: int, left: int, x: PaymentService.SettleFaults, publish: Net)
        returns (err: bool)
      requires TableOk(service.db)
      modifies this`results, service, service.manager, service.breaker
      ensures service.db == old(service.db).(status := service.db.status)
      ensures err <==> f.pay != "" && (x.lookup || f.pay !in old(service.db.terms)
                                       || (old(service.db.status)[f.pay] == PENDING && x.write.Fails?))
      ensures if f.pay != "" && !err && TakesEffect(publish) then
                && f.pay in service.db.terms && f.pay in service.db.status
                && results == old(results) + [ResultEvent(f.pay, service.db.terms[f.pay], service.db.status[f.pay])]
                && !Evaluable(Event(f.pay, Text(service.db.status[f.pay])))
              else results == old(results)
    {
      err := false;
      if f.pay == "" {
        return;
      }
      var p;
      p, err := service.ProcessFraudResult(f.pay, f.approved, entered, left, x);
      if err {
        return;
      }
      if TakesEffect(publish) {
        results := results + [ResultEvent(p.id, p.terms, p.status)];
      }
    }
  }
}
