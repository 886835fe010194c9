/**
 Runs of the payment protocol, from its start, that end badly: the cache says
 PENDING of a payment it said FAILED of before, and a FAILED payment whose money
 has moved.
 */
module PaymentRuns {
  import opened Accounts
  import opened Payments
  import opened PaymentRows
  import opened PaymentSaga
  import opened PaymentCache

  const WANTED := Terms("k", "a", "b", 1, "USD")

  const MADE := Payment("pay_1", WANTED, PENDING)

  /** One request for one payment, and one relay worker. */
  function Start(money: Db): State {
    Init([WANTED], 1, money)
  }

  function Stored(): Tables {
    Committed(Tables(map[], map[], map[], []), MADE, [CreatedRow(MADE, 0)])
  }

  lemma Insert(money: Db) returns (acts: seq<Action>, s: State)
    ensures Run(Start(money), acts) == s
    ensures s == Start(money).(calls := [Call(WANTED, AtOutbox(MADE))], redis := map["k" := InFlight(WANTED, 0)])
  {
    var s0, a := Start(money), CallStep(0, "pay_1", 0);
    assert s0.calls == [Call(WANTED, Fresh)];
    Then(s0, [], a);
    acts, s := [] + [a], Apply(s0, a);
    assert s.calls[0] == Call(WANTED, AtSetNX);
    Then(s0, acts, a);
    acts, s := acts + [a], Apply(s, a);
    assert s.calls[0] == Call(WANTED, AtDbCheck);
    Then(s0, acts, a);
    acts, s := acts + [a], Apply(s, a);
    assert s.calls[0] == Call(WANTED, AtInsert);
    assert "pay_1"[..4] == "pay_" && !InsertBlocked(s, 0, "pay_1");
    Then(s0, acts, a);
    acts, s := acts + [a], Apply(s, a);
    assert s.calls == [Call(WANTED, AtOutbox(MADE))];
  }

  /** The call has committed its payment and is about to cache it. */
  lemma Create(money: Db) returns (acts: seq<Action>, s: State)
    ensures Run(Start(money), acts) == s
    ensures s == Start(money).(db := Stored(), calls := [Call(WANTED, AtComplete(MADE))],
                               redis := map["k" := InFlight(WANTED, 0)])
  {
    var a := CallStep(0, "pay_1", 0);
    acts, s := Insert(money);
    Then(Start(money), acts, a);
    acts, s := acts + [a], Apply(s, a);
    assert s.calls == [Call(WANTED, AtCommit(MADE, [CreatedRow(MADE, 0)]))];
    Then(Start(money), acts, a);
    acts, s := acts + [a], Apply(s, a);
    assert s.calls == [Call(WANTED, AtComplete(MADE))];
  }

  /** Meanwhile its event has been published, */
  lemma Announce(money: Db) returns (acts: seq<Action>, s: State)
    ensures Run(Start(money), acts) == s && s.db == Stored() && s.calls == [Call(WANTED, AtComplete(MADE))]
    ensures s.bus == Bus([Message("a", Created("pay_1", WANTED, PENDING))], [], []) && s.attempts == [] && s.money == money
  {
    acts, s := Create(money);
    assert s.workers == [Worker([], false)];
    Then(Start(money), acts, Fetch(0, [0]));
    acts, s := acts + [Fetch(0, [0])], Apply(s, Fetch(0, [0]));
    assert s.workers == [Worker([0], false)];
    Then(Start(money), acts, Publish(0));
    acts, s := acts + [Publish(0)], Apply(s, Publish(0));
  }

  /** evaluated, and the fraud result delivered. */
  lemma Evaluated(money: Db, approved: bool) returns (acts: seq<Action>, s: State)
    ensures Run(Start(money), acts) == s && s.db == Stored() && s.calls == [Call(WANTED, AtComplete(MADE))]
    ensures s.attempts == [NewAttempt("pay_1", if approved then Calling else Rejecting)] && s.money == money
  {
    acts, s := Announce(money);
    Then(Start(money), acts, Payments.Evaluate(0, approved));
    acts, s := acts + [Payments.Evaluate(0, approved)], Apply(s, Payments.Evaluate(0, approved));
    assert s.bus.fraud == [FraudResult("pay_1", approved)];
    Then(Start(money), acts, Deliver(0));
    acts, s := acts + [Deliver(0)], Apply(s, Deliver(0));
  }

  /**
   The cache falls back: the payment is rejected, stored and cached as FAILED, and
   then the call that created it caches it as PENDING.
   */
  lemma CacheFallsBack(money: Db) returns (acts: seq<Action>)
    ensures acts != []
    ensures var before := Run(Start(money), acts[..|acts| - 1]);
            && before.db.status == map["pay_1" := FAILED]
            && "k" in before.redis && before.redis["k"] == Completed(MADE.(status := FAILED))
    ensures var after := Run(Start(money), acts);
            && after.db.status == map["pay_1" := FAILED]
            && "k" in after.redis && after.redis["k"] == Completed(MADE)
  {
    var s;
    acts, s := Evaluated(money, false);
    Then(Start(money), acts, SagaStep(0));
    acts, s := acts + [SagaStep(0)], Apply(s, SagaStep(0));
    assert s.db.status == map["pay_1" := FAILED] && s.attempts[0].phase == Caching(MADE.(status := FAILED));
    Then(Start(money), acts, SagaStep(0));
    acts, s := acts + [SagaStep(0)], Apply(s, SagaStep(0));
    assert s.redis["k"] == Completed(MADE.(status := FAILED));
    var before := acts;
    CompleteStores(s, 0, 0);
    hide Apply;
    Then(Start(money), acts, CallStep(0, "", 0));
    acts := acts + [CallStep(0, "", 0)];
    assert acts[..|acts| - 1] == before;
  }

  /** The payment was approved and its transfer request is out. */
  lemma Requested(money: Db) returns (acts: seq<Action>, s: State)
    ensures Run(Start(money), acts) == s && s.db == Stored() && s.money == money
    ensures s.attempts == [NewAttempt("pay_1", Waiting).(sent := true)]
  {
    acts, s := Evaluated(money, true);
    Then(Start(money), acts, SagaStep(0));
    acts, s := acts + [SagaStep(0)], Apply(s, SagaStep(0));
  }

  /** A payment that is FAILED, with its transfer made: the reply was lost. */
  lemma FailedThoughPaid(money: Db) returns (acts: seq<Action>)
    requires NoPaymentsBooked(money) && Accepts(money, TransferOf("pay_1", WANTED))
    ensures var s := Run(Start(money), acts);
            s.db.status == map["pay_1" := FAILED] && Booked(s.money.ledger, "pay_1", WANTED)
  {
    var s;
    acts, s := Requested(money);
    Reachable([WANTED], 1, money, acts);
    hide Rows, Saga, Run, Init;
    LostReplyFailsAPaidPayment(s, 0);
    LateReplyFails(s);
    var more := [Serve(0, true), ReplyLost(0), SagaStep(0)];
    RunAppend(Start(money), acts, more);
    acts := acts + more;
  }

  lemma LateReplyFails(s: State)
    requires s.db.status == map["pay_1" := PENDING] && s.db.terms == map["pay_1" := WANTED]
    requires |s.attempts| == 1 && s.attempts[0] == NewAttempt("pay_1", Waiting).(sent := true)
    requires Accepts(s.money, TransferOf("pay_1", WANTED))
    ensures Run(s, [Serve(0, true), ReplyLost(0), SagaStep(0)]).db.status == map["pay_1" := FAILED]
  {
    var a1, a2, a3 := Serve(0, true), ReplyLost(0), SagaStep(0);
    ServeMoves(s, 0);
    hide Accepts, Move, Apply, TransferOf;
    LoseReply(Apply(s, a1), 0);
    FailPayment(Apply(Apply(s, a1), a2), 0);
    RunThree(s, a1, a2, a3);
  }
}
