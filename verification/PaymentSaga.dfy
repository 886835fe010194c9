/**
 What every run keeps about settling payments: statuses, announcements, and the
 money moved under a payment's reference.
 */
module PaymentSaga {
  import opened Accounts
  import opened Payments
  import opened PaymentRows
  import L = LedgerAudit

  /** The attempt has not written a status yet but is going to. */
  predicate Undecided(att: Attempt) {
    att.phase.Rejecting? || att.phase.Calling? || att.phase.Waiting? || att.phase.Decided?
  }

  /** The attempt ended, by crash or by a failed status write, without recording a status. */
  predicate Unrecorded(att: Attempt) {
    att.phase.Ended? && !att.recorded
  }

  /** Nothing has moved, or the caller never learnt the answer. */
  predicate AnswerKnownFailed(att: Attempt) {
    att.sent ==> att.replyLost || (att.served && !att.moved)
  }

  predicate Consistent(status: map<PayId, Status>, att: Attempt) {
    && att.pay in status
    && (att.moved ==> att.served) && (att.served ==> att.sent)
    && (Undecided(att) ==> status[att.pay] == PENDING && !att.recorded)
    && (att.phase.Rejecting? || att.phase.Calling? ==> !att.sent)
    && (att.phase == Decided(true) ==> att.moved)
    && (att.phase == Decided(false) ==> AnswerKnownFailed(att))
    && (att.phase.Caching? ==> att.recorded && att.phase.settled.status == status[att.pay])
    && (att.phase.Publishing? ==> status[att.pay] != PENDING && att.phase.event.status == status[att.pay])
    && (att.phase.Publishing? && !att.recorded ==> !att.sent)
    && (att.recorded ==> status[att.pay] != PENDING)
    && (att.recorded && status[att.pay] == SUCCESS ==> att.moved)
    && (att.recorded && status[att.pay] == FAILED ==> AnswerKnownFailed(att))
  }

  predicate Settling(att: Attempt) {
    att.recorded || Undecided(att)
  }

  predicate HasRecorded(attempts: seq<Attempt>, id: PayId) {
    exists a :: 0 <= a < |attempts| && attempts[a].pay == id && attempts[a].recorded
  }

  ghost predicate SettledOnce(status: map<PayId, Status>, attempts: seq<Attempt>) {
    && (forall a :: 0 <= a < |attempts| ==> Consistent(status, attempts[a]))
    && (forall a, b :: 0 <= a < b < |attempts| && Settling(attempts[a]) && Settling(attempts[b]) ==>
          attempts[a].pay != attempts[b].pay)
    && (forall id :: id in status && status[id] != PENDING ==> HasRecorded(attempts, id))
  }

  /** Every announcement carries the payment's final status. */
  ghost predicate AnnouncedOk(db: Tables, results: seq<ResultEvent>) {
    forall e :: e in results ==>
      && e.id in db.terms && e.terms == db.terms[e.id]
      && e.id in db.status && e.status == db.status[e.id] && e.status != PENDING
  }

  /** How many attempts at `id` moved money; with `lost`, only those that never recorded a status. */
  function Tally(attempts: seq<Attempt>, id: PayId, lost: bool): nat {
    if attempts == [] then 0
    else Tally(attempts[..|attempts| - 1], id, lost) + Counts(attempts[|attempts| - 1], id, lost)
  }

  function Counts(att: Attempt, id: PayId, lost: bool): nat {
    if att.pay == id && att.moved && (lost ==> Unrecorded(att)) then 1 else 0
  }

  /** The payment's DEBIT on its source and CREDIT on its target are in the ledger. */
  predicate Booked(ledger: seq<Entry>, id: PayId, t: Terms) {
    Entry(t.source, t.amount, Debit, id) in ledger && Entry(t.target, t.amount, Credit, id) in ledger
  }

  /** Under a payment reference the ledger holds one pair per attempt that moved money, and nothing else. */
  ghost predicate LedgerOk(terms: map<PayId, Terms>, attempts: seq<Attempt>, ledger: seq<Entry>) {
    && (forall id :: IsPaymentRef(id) ==> L.RefCount(ledger, id) == 2 * Tally(attempts, id, false))
    && (forall a :: 0 <= a < |attempts| && attempts[a].moved ==>
          attempts[a].pay in terms && Booked(ledger, attempts[a].pay, terms[attempts[a].pay]))
  }

  ghost predicate Saga(s: State) {
    && SettledOnce(s.db.status, s.attempts)
    && AnnouncedOk(s.db, s.bus.results)
    && LedgerOk(s.db.terms, s.attempts, s.money.ledger)
  }

  // ---------------------------------------------------------------------------
  // Counting
  // ---------------------------------------------------------------------------

  lemma {:induction false} TallyUpdate(attempts: seq<Attempt>, a: nat, att: Attempt, id: PayId, lost: bool)
    requires a < |attempts|
    ensures Tally(attempts[a := att], id, lost) ==
            Tally(attempts, id, lost) - Counts(attempts[a], id, lost) + Counts(att, id, lost)
  {
    var n := |attempts| - 1;
    if a < n {
      assert attempts[a := att][..n] == attempts[..n][a := att];
      TallyUpdate(attempts[..n], a, att, id, lost);
    } else {
      assert attempts[a := att][..n] == attempts[..n];
    }
  }

  lemma {:induction false} AllLost(attempts: seq<Attempt>, id: PayId)
    requires forall a :: 0 <= a < |attempts| && attempts[a].pay == id && attempts[a].moved ==> Unrecorded(attempts[a])
    ensures Tally(attempts, id, true) == Tally(attempts, id, false)
  {
    if attempts != [] {
      AllLost(attempts[..|attempts| - 1], id);
    }
  }

  lemma {:induction false} AtMostOneMore(status: map<PayId, Status>, attempts: seq<Attempt>, id: PayId)
    requires forall a :: 0 <= a < |attempts| ==> Consistent(status, attempts[a])
    requires forall a, b :: 0 <= a < b < |attempts| && Settling(attempts[a]) && Settling(attempts[b]) ==>
               attempts[a].pay != attempts[b].pay
    ensures Tally(attempts, id, false) <= Tally(attempts, id, true) + 1
  {
    if attempts != [] {
      var before := attempts[..|attempts| - 1];
      var last := attempts[|attempts| - 1];
      if Counts(last, id, false) == Counts(last, id, true) {
        AtMostOneMore(status, before, id);
      } else {
        assert Settling(last);
        forall a | 0 <= a < |before| && before[a].pay == id && before[a].moved ensures Unrecorded(before[a]) {
          assert attempts[a] == before[a] && !Settling(attempts[a]);
        }
        AllLost(before, id);
      }
    }
  }

  /** Some attempt at `id` moved money. */
  predicate SomeMoved(attempts: seq<Attempt>, id: PayId) {
    exists a :: 0 <= a < |attempts| && attempts[a].pay == id && attempts[a].moved
  }

  lemma {:induction false} TallyPositive(attempts: seq<Attempt>, id: PayId)
    ensures Tally(attempts, id, false) > 0 <==> SomeMoved(attempts, id)
  {
    if attempts != [] {
      var n := |attempts| - 1;
      TallyPositive(attempts[..n], id);
      if SomeMoved(attempts[..n], id) {
        var a :| 0 <= a < n && attempts[..n][a].pay == id && attempts[..n][a].moved;
        assert attempts[a].pay == id;
      }
    }
  }

  // ---------------------------------------------------------------------------
  // Steps of the saga
  // ---------------------------------------------------------------------------

  /** Writing a status for a payment whose only settling attempt is `a` disturbs no other attempt. */
  lemma RecordKeepsOthers(status: map<PayId, Status>, attempts: seq<Attempt>, a: nat, st: Status)
    requires SettledOnce(status, attempts) && a < |attempts| && Undecided(attempts[a])
    ensures forall b :: 0 <= b < |attempts| && b != a ==> Consistent(status[attempts[a].pay := st], attempts[b])
    ensures status[attempts[a].pay] == PENDING
  {
    assert Consistent(status, attempts[a]);
    forall b | 0 <= b < |attempts| && b != a ensures Consistent(status[attempts[a].pay := st], attempts[b]) {
      assert Consistent(status, attempts[b]);
      assert Settling(attempts[a]);
      assert Settling(attempts[b]) ==> attempts[b].pay != attempts[a].pay;
    }
  }

  lemma RecordedStays(attempts: seq<Attempt>, a: nat, att: Attempt, id: PayId)
    requires a < |attempts| && att.pay == attempts[a].pay && (attempts[a].recorded ==> att.recorded)
    requires HasRecorded(attempts, id) || (att.pay == id && att.recorded)
    ensures HasRecorded(attempts[a := att], id)
  {
    var attempts' := attempts[a := att];
    if HasRecorded(attempts, id) {
      var b :| 0 <= b < |attempts| && attempts[b].pay == id && attempts[b].recorded;
      assert attempts'[b].pay == id && attempts'[b].recorded;
    } else {
      assert attempts'[a].pay == id;
    }
  }

  /** How an attempt may change: it records its verdict, or leaves the status alone. */
  ghost predicate Progress(b: Back, b': Back) {
    && b'.att.pay == b.att.pay && (b.att.recorded ==> b'.att.recorded)
    && (Settling(b'.att) ==> Settling(b.att))
    && (b'.status == b.status ||
        (Undecided(b.att) && b'.att.recorded && exists st ::
           st != PENDING && b'.status == Recorded(b.status, b.att.pay, st)))
  }

  function Recorded(status: map<PayId, Status>, id: PayId, st: Status): map<PayId, Status> {
    status[id := st]
  }

  lemma RecordProgresses(b: Back, next: Phase)
    requires Consistent(b.status, b.att) && Undecided(b.att)
    requires b.att.phase.Rejecting? || b.att.phase.Decided?
    requires next.Ended? || (next.Caching? && next.settled.status == Verdict(b.att.phase))
    ensures Progress(b, RecordStatus(b, next)) && Consistent(RecordStatus(b, next).status, RecordStatus(b, next).att)
  {
    assert RecordStatus(b, next).status == Recorded(b.status, b.att.pay, Verdict(b.att.phase));
  }

  lemma NextProgresses(b: Back, t: Terms)
    requires Consistent(b.status, b.att)
    ensures Progress(b, NextOfSaga(b, t)) && Consistent(NextOfSaga(b, t).status, NextOfSaga(b, t).att)
  {
    match b.att.phase
    case Rejecting => RecordProgresses(b, Caching(Payment(b.att.pay, t, FAILED)));
    case Calling =>
    case Waiting =>
    case Decided(_) => RecordProgresses(b, Caching(Payment(b.att.pay, t, Verdict(b.att.phase))));
    case Caching(_) =>
    case Publishing(_) =>
    case Ended =>
  }

  lemma FaultProgresses(b: Back, t: Terms, applied: bool)
    requires Consistent(b.status, b.att)
    ensures var b' := FaultOfSaga(b, t, applied); Progress(b, b') && Consistent(b'.status, b'.att)
  {
    match b.att.phase
    case Rejecting => RecordProgresses(b, Ended);
    case Calling =>
    case Waiting =>
    case Decided(_) => RecordProgresses(b, Ended);
    case Caching(_) =>
    case Publishing(_) =>
    case Ended =>
  }

  lemma AttemptProgresses(b: Back, t: Terms, a: Action)
    requires OfSaga(a) && Consistent(b.status, b.att)
    ensures var b' := SagaAction(b, t, a); Progress(b, b') && Consistent(b'.status, b'.att)
  {
    match a
    case SagaStep(_) => NextProgresses(b, t);
    case BreakerOpen(_) =>
    case ReplyLost(_) =>
    case SagaFault(_, applied) => FaultProgresses(b, t, applied);
    case SagaCrash(_) =>
    case Serve(_, _) =>
  }

  lemma ProgressKeepsSettled(attempts: seq<Attempt>, a: nat, b: Back, b': Back)
    requires a < |attempts| && b.att == attempts[a] && SettledOnce(b.status, attempts)
    requires Progress(b, b') && Consistent(b'.status, b'.att)
    ensures SettledOnce(b'.status, attempts[a := b'.att])
  {
    if b'.status != b.status {
      RecordKeepsOthers(b.status, attempts, a, b'.status[b.att.pay]);
    }
    forall id | id in b'.status && b'.status[id] != PENDING ensures HasRecorded(attempts[a := b'.att], id) {
      RecordedStays(attempts, a, b'.att, id);
    }
  }

  lemma AnnounceOne(db: Tables, results: seq<ResultEvent>, e: ResultEvent)
    requires AnnouncedOk(db, results) && AnnouncedOk(db, [e])
    ensures AnnouncedOk(db, results + [e])
  {
    assert e in [e];
  }

  /** New announcements agree with the status, and a status is written only before the first of them. */
  lemma ProgressKeepsAnnounced(db: Tables, b: Back, t: Terms, a: Action)
    requires OfSaga(a) && AnnouncedOk(db, b.results) && db.status == b.status && Consistent(b.status, b.att)
    requires AttemptOk(db.terms, b.att) && t == db.terms[b.att.pay]
    ensures AnnouncedOk(db.(status := SagaAction(b, t, a).status), SagaAction(b, t, a).results)
  {
    AttemptProgresses(b, t, a);
    if b.att.phase.Publishing? {
      var p := b.att.phase.event;
      AnnounceOne(db, b.results, ResultEvent(p.id, p.terms, p.status));
    }
  }

  /** The account service books a pair exactly when it marks the attempt as having moved the money. */
  lemma ProgressBooks(b: Back, t: Terms, a: Action)
    requires OfSaga(a) && Consistent(b.status, b.att)
    ensures var b' := SagaAction(b, t, a);
            if b'.att.moved == b.att.moved then b'.money == b.money
            else b'.att.moved && Accepts(b.money, TransferOf(b.att.pay, t))
                 && b'.money == Move(b.money, TransferOf(b.att.pay, t))
  {
  }

  lemma StillBooked(ledger: seq<Entry>, more: seq<Entry>, id: PayId, t: Terms)
    requires Booked(ledger, id, t)
    ensures Booked(ledger + more, id, t)
  {
  }

  lemma MoveKeepsLedgerOk(terms: map<PayId, Terms>, attempts: seq<Attempt>, a: nat, att: Attempt, money: Db)
    requires LedgerOk(terms, attempts, money.ledger) && a < |attempts| && att.pay == attempts[a].pay && att.pay in terms
    requires att.moved && !attempts[a].moved && Accepts(money, TransferOf(att.pay, terms[att.pay]))
    ensures LedgerOk(terms, attempts[a := att], Move(money, TransferOf(att.pay, terms[att.pay])).ledger)
  {
    var r := TransferOf(att.pay, terms[att.pay]);
    var pair := [DebitOf(r), CreditOf(r)];
    assert DebitOf(r) == pair[0] && CreditOf(r) == pair[1];
    forall id | IsPaymentRef(id)
      ensures L.RefCount(money.ledger + pair, id) == 2 * Tally(attempts[a := att], id, false)
    {
      L.BookedPair(money.ledger, r, r.from, id);
      TallyUpdate(attempts, a, att, id, false);
    }
    var attempts' := attempts[a := att];
    forall b | 0 <= b < |attempts'| && attempts'[b].moved
      ensures attempts'[b].pay in terms && Booked(money.ledger + pair, attempts'[b].pay, terms[attempts'[b].pay])
    {
      if b != a {
        StillBooked(money.ledger, pair, attempts[b].pay, terms[attempts[b].pay]);
      }
    }
  }

  lemma SameMovesKeepLedgerOk(terms: map<PayId, Terms>, attempts: seq<Attempt>, a: nat, att: Attempt, ledger: seq<Entry>)
    requires LedgerOk(terms, attempts, ledger) && a < |attempts|
    requires att.pay == attempts[a].pay && att.moved == attempts[a].moved
    ensures LedgerOk(terms, attempts[a := att], ledger)
  {
    forall id | IsPaymentRef(id) ensures L.RefCount(ledger, id) == 2 * Tally(attempts[a := att], id, false) {
      TallyUpdate(attempts, a, att, id, false);
    }
  }

  lemma ProgressKeepsSaga(s: State, a: nat, b': Back)
    requires Rows(s) && Saga(s) && a < |s.attempts| && AttemptOk(s.db.terms, s.attempts[a])
    requires Progress(BackOf(s, a), b') && Consistent(b'.status, b'.att)
    requires AnnouncedOk(s.db.(status := b'.status), b'.results)
    requires var r := TransferOf(s.attempts[a].pay, s.db.terms[s.attempts[a].pay]);
             if b'.att.moved == s.attempts[a].moved then b'.money == s.money
             else b'.att.moved && Accepts(s.money, r) && b'.money == Move(s.money, r)
    ensures Saga(WithBack(s, a, b'))
  {
    hide Rows, TableOk, OutboxOk, LedgerOk, AnnouncedOk;
    ProgressKeepsSettled(s.attempts, a, BackOf(s, a), b');
    hide SettledOnce, Consistent;
    if b'.att.moved == s.attempts[a].moved {
      SameMovesKeepLedgerOk(s.db.terms, s.attempts, a, b'.att, s.money.ledger);
    } else {
      MoveKeepsLedgerOk(s.db.terms, s.attempts, a, b'.att, s.money);
    }
  }

  lemma AttemptKeepsSaga(s: State, a: Action)
    requires Rows(s) && Saga(s) && OfSaga(a)
    ensures Saga(ApplySaga(s, a))
  {
    hide SagaAction, LedgerOk;
    if a.a < |s.attempts| {
      assert AttemptOk(s.db.terms, s.attempts[a.a]) && Consistent(s.db.status, s.attempts[a.a]);
      hide SettledOnce, AnnouncedOk, AttemptOk, Consistent, Rows, Saga;
      var b, t := BackOf(s, a.a), s.db.terms[s.attempts[a.a].pay];
      AttemptProgresses(b, t, a);
      ProgressKeepsAnnounced(s.db, b, t, a);
      ProgressBooks(b, t, a);
      ProgressKeepsSaga(s, a.a, SagaAction(b, t, a));
    }
  }

  lemma AppendAttempt(s: State, att: Attempt)
    requires Saga(s) && Consistent(s.db.status, att) && !att.recorded && !att.moved
    requires Undecided(att) ==> !BeingHandled(s.attempts, att.pay)
    ensures Saga(s.(attempts := s.attempts + [att]))
  {
    var attempts' := s.attempts + [att];
    assert attempts'[..|s.attempts|] == s.attempts;
    forall id | id in s.db.status && s.db.status[id] != PENDING ensures HasRecorded(attempts', id) {
      var a :| 0 <= a < |s.attempts| && s.attempts[a].pay == id && s.attempts[a].recorded;
      assert attempts'[a].pay == id;
    }
    forall a | 0 <= a < |s.attempts| && Settling(s.attempts[a]) && Settling(att) ensures s.attempts[a].pay != att.pay {
      assert Consistent(s.db.status, s.attempts[a]);
    }
  }

  lemma DeliverKeepsSaga(s: State, m: nat)
    requires Saga(s)
    ensures Saga(DeliverResult(s, m))
  {
    var s' := DeliverResult(s, m);
    if s' != s {
      AppendAttempt(s, s'.attempts[|s.attempts|]);
    }
  }

  // ---------------------------------------------------------------------------
  // Steps of others
  // ---------------------------------------------------------------------------

  lemma CommitKeepsSaga(s: State, p: Payment, rows: seq<OutboxRow>)
    requires AttemptsOk(s.db.terms, s.attempts) && Saga(s) && p.id !in s.db.terms && p.status == PENDING
    requires s.db.terms.Keys == s.db.status.Keys
    ensures Saga(s.(db := Committed(s.db, p, rows)))
  {
    forall a | 0 <= a < |s.attempts| ensures Consistent(s.db.status[p.id := PENDING], s.attempts[a]) {
      assert AttemptOk(s.db.terms, s.attempts[a]) && Consistent(s.db.status, s.attempts[a]);
    }
  }

  lemma TableKeys(db: Tables)
    requires TableOk(db)
    ensures db.terms.Keys == db.status.Keys
  {
  }

  lemma CallKeepsSaga(s: State, a: Action)
    requires Rows(s) && Saga(s) && OfCall(a)
    ensures Saga(ApplyCall(s, a))
  {
    hide SettledOnce, AnnouncedOk, LedgerOk, TableOk, OutboxOk, RecordsOk;
    if a.c < |s.calls| {
      var f := CallAction(s, a);
      if f.db != s.db {
        assert s.db.terms.Keys == s.db.status.Keys by { TableKeys(s.db); }
        assert CallOk(s.db.terms, s.calls[a.c]);
        hide Rows, AttemptsOk, CallsOk;
        CommitKeepsSaga(s, s.calls[a.c].pc.pending, s.calls[a.c].pc.rows);
      }
    }
  }

  lemma ForeignKeepsSaga(s: State, r: Request)
    requires Saga(s) && !IsPaymentRef(r.ref)
    ensures Saga(s.(money := MoveIfAccepted(s.money, r)))
  {
    if Accepts(s.money, r) {
      var pair := [DebitOf(r), CreditOf(r)];
      forall id | IsPaymentRef(id) ensures L.RefCount(s.money.ledger + pair, id) == L.RefCount(s.money.ledger, id) {
        L.BookedPair(s.money.ledger, r, r.from, id);
      }
      forall a | 0 <= a < |s.attempts| && s.attempts[a].moved
        ensures Booked(s.money.ledger + pair, s.attempts[a].pay, s.db.terms[s.attempts[a].pay])
      {
        StillBooked(s.money.ledger, pair, s.attempts[a].pay, s.db.terms[s.attempts[a].pay]);
      }
    }
  }

  lemma OtherKeepsSaga(s: State, a: Action)
    requires Saga(s) && !OfCall(a) && !OfWorker(a) && !OfSaga(a)
    ensures Saga(ApplyOther(s, a))
  {
    if a.Deliver? {
      DeliverKeepsSaga(s, a.m);
      hide *;
    } else if a.Foreign? && !IsPaymentRef(a.r.ref) {
      ForeignKeepsSaga(s, a.r);
    }
  }

  lemma ApplyKeepsSaga(s: State, a: Action)
    requires Rows(s) && Saga(s)
    ensures Saga(Apply(s, a))
  {
    hide ApplyCall, ApplySaga, ApplyOther, WorkerAction, Rows;
    if OfCall(a) {
      CallKeepsSaga(s, a);
    } else if OfSaga(a) {
      AttemptKeepsSaga(s, a);
    } else if !OfWorker(a) {
      OtherKeepsSaga(s, a);
    }
  }

  lemma {:induction false} RunKeepsSaga(s: State, acts: seq<Action>)
    requires Rows(s) && Saga(s)
    ensures Rows(Run(s, acts)) && Saga(Run(s, acts))
    decreases |acts|
  {
    if acts != [] {
      ApplyKeepsRows(s, acts[0]);
      ApplyKeepsSaga(s, acts[0]);
      RunKeepsSaga(Apply(s, acts[0]), acts[1..]);
    }
  }

  /** No ledger entry yet carries a payment's id. */
  ghost predicate NoPaymentsBooked(money: Db) {
    forall id :: IsPaymentRef(id) ==> L.RefCount(money.ledger, id) == 0
  }

  lemma Reachable(requests: seq<Terms>, workers: nat, money: Db, acts: seq<Action>)
    requires NoPaymentsBooked(money)
    ensures var s := Run(Init(requests, workers, money), acts); Rows(s) && Saga(s)
  {
    RunKeepsSaga(Init(requests, workers, money), acts);
  }

  // ---------------------------------------------------------------------------
  // The theorems
  // ---------------------------------------------------------------------------

  /**
   Exactly once.  In every run, however often fraud results are delivered, the
   DEBIT/CREDIT pairs booked under a payment's id number at most one plus the
   attempts that moved money but ended without recording a status.
   */
  lemma OncePerPaymentPlusUnrecorded(requests: seq<Terms>, workers: nat, money: Db, acts: seq<Action>, id: PayId)
    requires NoPaymentsBooked(money) && IsPaymentRef(id)
    ensures var s := Run(Init(requests, workers, money), acts);
            && L.RefCount(s.money.ledger, id) == 2 * Tally(s.attempts, id, false)
            && Tally(s.attempts, id, false) <= 1 + Tally(s.attempts, id, true)
  {
    Reachable(requests, workers, money, acts);
    var s := Run(Init(requests, workers, money), acts);
    AtMostOneMore(s.db.status, s.attempts, id);
  }

  /** SUCCESS payments that lack a pair of ledger entries, as the three-way audit selects them. */
  function MissingInLedger(db: Tables, ledger: seq<Entry>): set<PayId> {
    set id | id in db.status && db.status[id] == SUCCESS && L.RefCount(ledger, id) < 2
  }

  /**
   A SUCCESS payment has its DEBIT on the source and its CREDIT on the target,
   for its amount, so the three-way audit counts nothing.
   */
  lemma SuccessMeansMoved(requests: seq<Terms>, workers: nat, money: Db, acts: seq<Action>)
    requires NoPaymentsBooked(money)
    ensures var s := Run(Init(requests, workers, money), acts);
            && s.db.status.Keys == s.db.terms.Keys
            && (forall id :: id in s.db.terms && s.db.status[id] == SUCCESS ==>
                  var t := s.db.terms[id];
                  && Entry(t.source, t.amount, Debit, id) in s.money.ledger
                  && Entry(t.target, t.amount, Credit, id) in s.money.ledger)
            && |MissingInLedger(s.db, s.money.ledger)| == 0
  {
    Reachable(requests, workers, money, acts);
    var s := Run(Init(requests, workers, money), acts);
    hide Run, Init, AnnouncedOk, OutboxOk, CallsOk, RecordsOk, AttemptsOk;
    forall id | id in s.db.terms && s.db.status[id] == SUCCESS
      ensures Booked(s.money.ledger, id, s.db.terms[id]) && L.RefCount(s.money.ledger, id) >= 2
    {
      SuccessIsBooked(s.db.terms, s.db.status, s.attempts, s.money.ledger, id);
    }
    assert MissingInLedger(s.db, s.money.ledger) == {};
  }

  lemma {:induction false} RefCountIsSize(ledger: seq<Entry>, ref: string)
    ensures L.RefCount(ledger, ref) == |set i | 0 <= i < |ledger| && ledger[i].ref == ref|
  {
    if ledger != [] {
      var n := |ledger| - 1;
      RefCountIsSize(ledger[..n], ref);
      var before := set i | 0 <= i < n && ledger[..n][i].ref == ref;
      assert (set i | 0 <= i < |ledger| && ledger[i].ref == ref) == before + if ledger[n].ref == ref then {n} else {};
    }
  }

  /** What the three-way audit finds: the SUCCESS payments with fewer than two ledger entries under their id. */
  lemma ThreeWayAuditFinds(db: Tables, ledger: seq<Entry>, id: PayId)
    ensures id in MissingInLedger(db, ledger) <==>
            && id in db.status && db.status[id] == SUCCESS
            && |set i | 0 <= i < |ledger| && ledger[i].ref == id| < 2
  {
    RefCountIsSize(ledger, id);
  }

  lemma {:induction false} RefCountWithout(ledger: seq<Entry>, i: nat, ref: string)
    requires i < |ledger|
    ensures L.RefCount(ledger[..i] + ledger[i + 1..], ref) == L.RefCount(ledger, ref) - if ledger[i].ref == ref then 1 else 0
  {
    var n := |ledger| - 1;
    if i == n {
      assert ledger[..i] + ledger[i + 1..] == ledger[..n];
    } else {
      RefCountWithout(ledger[..n], i, ref);
      var fewer := ledger[..i] + ledger[i + 1..];
      assert ledger == ledger[..n] + [ledger[n]];
      assert fewer == (ledger[..n][..i] + ledger[..n][i + 1..]) + [ledger[n]];
      assert fewer[..n - 1] == ledger[..n][..i] + ledger[..n][i + 1..];
    }
  }

  /** Losing one entry of a SUCCESS payment with a single pair is found, and it alone. */
  lemma LostEntryIsFound(requests: seq<Terms>, workers: nat, money: Db, acts: seq<Action>, i: nat)
    requires NoPaymentsBooked(money)
    requires var s := Run(Init(requests, workers, money), acts);
             && i < |s.money.ledger|
             && var id := s.money.ledger[i].ref;
             id in s.db.status && s.db.status[id] == SUCCESS && Tally(s.attempts, id, false) == 1
    ensures var s := Run(Init(requests, workers, money), acts);
            MissingInLedger(s.db, s.money.ledger[..i] + s.money.ledger[i + 1..]) == {s.money.ledger[i].ref}
  {
    var s := Run(Init(requests, workers, money), acts);
    var id, fewer := s.money.ledger[i].ref, s.money.ledger[..i] + s.money.ledger[i + 1..];
    Reachable(requests, workers, money, acts);
    SuccessMeansMoved(requests, workers, money, acts);
    hide Run, Init, AnnouncedOk, OutboxOk, CallsOk, RecordsOk, AttemptsOk, SettledOnce;
    assert MissingInLedger(s.db, s.money.ledger) == {};
    forall other | other in s.db.status && s.db.status[other] == SUCCESS
      ensures other in MissingInLedger(s.db, fewer) <==> other == id
    {
      RefCountWithout(s.money.ledger, i, other);
      assert other !in MissingInLedger(s.db, s.money.ledger);
    }
  }

  lemma SuccessIsBooked(terms: map<PayId, Terms>, status: map<PayId, Status>, attempts: seq<Attempt>, ledger: seq<Entry>,
                        id: PayId)
    requires SettledOnce(status, attempts) && LedgerOk(terms, attempts, ledger)
    requires id in terms && IsPaymentRef(id) && id in status && status[id] == SUCCESS
    ensures Booked(ledger, id, terms[id]) && L.RefCount(ledger, id) >= 2
  {
    var a :| 0 <= a < |attempts| && attempts[a].pay == id && attempts[a].recorded;
    assert Consistent(status, attempts[a]);
    assert SomeMoved(attempts, id);
    TallyPositive(attempts, id);
  }

  /** An attempt that can leave money moved under a FAILED payment. */
  predicate Strayed(att: Attempt) {
    att.moved && (Unrecorded(att) || att.replyLost)
  }

  predicate SomeStrayed(attempts: seq<Attempt>, id: PayId) {
    exists a :: 0 <= a < |attempts| && attempts[a].pay == id && Strayed(attempts[a])
  }

  /**
   When FAILED is true of the money: a FAILED payment has entries in the ledger
   if and only if some transfer for it was committed by an attempt whose reply
   was lost or that never recorded a status.
   */
  lemma FailedMeansUnmovedUnlessStrayed(requests: seq<Terms>, workers: nat, money: Db, acts: seq<Action>, id: PayId)
    requires NoPaymentsBooked(money)
    requires var s := Run(Init(requests, workers, money), acts); id in s.db.status && s.db.status[id] == FAILED
    ensures var s := Run(Init(requests, workers, money), acts);
            L.RefCount(s.money.ledger, id) > 0 <==> SomeStrayed(s.attempts, id)
  {
    Reachable(requests, workers, money, acts);
    var s := Run(Init(requests, workers, money), acts);
    hide Run, Init, Rows, AnnouncedOk;
    MovedUnderFailedStrayed(s.db.status, s.attempts, id);
  }

  lemma MovedUnderFailedStrayed(status: map<PayId, Status>, attempts: seq<Attempt>, id: PayId)
    requires forall a :: 0 <= a < |attempts| ==> Consistent(status, attempts[a])
    requires id in status && status[id] == FAILED
    ensures Tally(attempts, id, false) > 0 <==> SomeStrayed(attempts, id)
  {
    TallyPositive(attempts, id);
    if SomeMoved(attempts, id) {
      var a :| 0 <= a < |attempts| && attempts[a].pay == id && attempts[a].moved;
      assert Consistent(status, attempts[a]);
      assert Strayed(attempts[a]);
    }
    if SomeStrayed(attempts, id) {
      var a :| 0 <= a < |attempts| && attempts[a].pay == id && Strayed(attempts[a]);
      assert SomeMoved(attempts, id);
    }
  }

  /**
   FAILED does not always mean that no money moved: whenever a transfer request
   is out that the account service would accept, the run can go on with the
   transfer committed, its reply lost, and the payment FAILED.
   */
  lemma LostReplyFailsAPaidPayment(s: State, a: nat)
    requires Rows(s) && Saga(s) && a < |s.attempts| && s.attempts[a].phase.Waiting? && !s.attempts[a].served
    requires s.attempts[a].sent && s.attempts[a].pay in s.db.terms
    requires Accepts(s.money, TransferOf(s.attempts[a].pay, s.db.terms[s.attempts[a].pay]))
    ensures var id := s.attempts[a].pay;
            var s' := Run(s, [Serve(a, true), ReplyLost(a), SagaStep(a)]);
            id in s'.db.status && s'.db.status[id] == FAILED && Booked(s'.money.ledger, id, s.db.terms[id])
  {
    var a1, a2, a3 := Serve(a, true), ReplyLost(a), SagaStep(a);
    assert Consistent(s.db.status, s.attempts[a]);
    ServeMoves(s, a);
    LoseReply(Apply(s, a1), a);
    FailPayment(Apply(Apply(s, a1), a2), a);
    RunThree(s, a1, a2, a3);
  }

  lemma ServeMoves(s: State, a: nat)
    requires a < |s.attempts| && s.attempts[a].phase.Waiting? && !s.attempts[a].served && s.attempts[a].sent
    requires s.attempts[a].pay in s.db.terms
    requires Accepts(s.money, TransferOf(s.attempts[a].pay, s.db.terms[s.attempts[a].pay]))
    ensures var s' := Apply(s, Serve(a, true));
            && s'.db == s.db && s'.attempts == s.attempts[a := s.attempts[a].(served := true, moved := true)]
            && Booked(s'.money.ledger, s.attempts[a].pay, s.db.terms[s.attempts[a].pay])
  {
    var r := TransferOf(s.attempts[a].pay, s.db.terms[s.attempts[a].pay]);
    var l := s.money.ledger + [DebitOf(r), CreditOf(r)];
    assert l[|s.money.ledger|] == DebitOf(r) && l[|s.money.ledger| + 1] == CreditOf(r);
  }

  lemma LoseReply(s: State, a: nat)
    requires a < |s.attempts| && s.attempts[a].phase.Waiting? && s.attempts[a].pay in s.db.terms
    ensures var s' := Apply(s, ReplyLost(a));
            && s'.db == s.db && s'.money == s.money
            && s'.attempts == s.attempts[a := s.attempts[a].(phase := Decided(false), replyLost := true)]
  {
  }

  lemma FailPayment(s: State, a: nat)
    requires a < |s.attempts| && s.attempts[a].phase == Decided(false) && s.attempts[a].pay in s.db.terms
    ensures var s' := Apply(s, SagaStep(a));
            && s'.db.status == s.db.status[s.attempts[a].pay := FAILED] && s'.money == s.money
  {
  }

  lemma RunThree(s: State, a1: Action, a2: Action, a3: Action)
    ensures Run(s, [a1, a2, a3]) == Apply(Apply(Apply(s, a1), a2), a3)
  {
    assert [a1, a2, a3][1..] == [a2, a3] && [a2, a3][1..] == [a3] && [a3][1..] == [];
    assert Run(Apply(s, a1), [a2, a3]) == Run(Apply(Apply(s, a1), a2), [a3]);
  }

  /** All result events of a payment carry one status: the payment's. */
  lemma AnnouncementsAgree(requests: seq<Terms>, workers: nat, money: Db, acts: seq<Action>)
    requires NoPaymentsBooked(money)
    ensures var s := Run(Init(requests, workers, money), acts);
            && AnnouncedOk(s.db, s.bus.results)
            && (forall e :: e in s.bus.results ==>
                  && e.id in s.db.terms && e.terms == s.db.terms[e.id]
                  && e.id in s.db.status && e.status == s.db.status[e.id] && e.status != PENDING)
            && forall e, f :: e in s.bus.results && f in s.bus.results && e.id == f.id ==> e.status == f.status
  {
    Reachable(requests, workers, money, acts);
  }

  // ---------------------------------------------------------------------------
  // No money without an approval
  // ---------------------------------------------------------------------------

  /** The attempt asks for a transfer, or has asked. */
  predicate Engaged(att: Attempt) {
    att.phase.Calling? || att.sent
  }

  /** Every attempt that asks for a transfer handles an approval. */
  ghost predicate Approved(fraud: seq<FraudResult>, attempts: seq<Attempt>) {
    forall a :: 0 <= a < |attempts| && Engaged(attempts[a]) ==> FraudResult(attempts[a].pay, true) in fraud
  }

  lemma AttemptEngages(b: Back, t: Terms, a: Action)
    requires OfSaga(a)
    ensures var att := SagaAction(b, t, a).att; att.pay == b.att.pay && (Engaged(att) ==> Engaged(b.att))
  {
    match a
    case SagaStep(_) => NextEngages(b, t);
    case BreakerOpen(_) =>
    case ReplyLost(_) =>
    case SagaFault(_, applied) => FaultEngages(b, t, applied);
    case SagaCrash(_) =>
    case Serve(_, _) =>
  }

  lemma NextEngages(b: Back, t: Terms)
    ensures var att := NextOfSaga(b, t).att; att.pay == b.att.pay && (Engaged(att) ==> Engaged(b.att))
  {
    match b.att.phase
    case Rejecting =>
    case Calling =>
    case Waiting =>
    case Decided(_) =>
    case Caching(_) =>
    case Publishing(_) =>
    case Ended =>
  }

  lemma FaultEngages(b: Back, t: Terms, applied: bool)
    ensures var att := FaultOfSaga(b, t, applied).att; att.pay == b.att.pay && (Engaged(att) ==> Engaged(b.att))
  {
    match b.att.phase
    case Rejecting =>
    case Calling =>
    case Waiting =>
    case Decided(_) =>
    case Caching(_) =>
    case Publishing(_) =>
    case Ended =>
  }

  lemma ApplyKeepsApproved(s: State, a: Action)
    requires Approved(s.bus.fraud, s.attempts)
    ensures Approved(Apply(s, a).bus.fraud, Apply(s, a).attempts)
  {
    hide CallAction, WorkerAction, SagaAction;
    if OfSaga(a) {
      if a.a < |s.attempts| && s.attempts[a.a].pay in s.db.terms {
        AttemptEngages(BackOf(s, a.a), s.db.terms[s.attempts[a.a].pay], a);
      }
    } else if a.Deliver? && a.m < |s.bus.fraud| && s.bus.fraud[a.m].approved {
      assert s.bus.fraud[a.m] == FraudResult(s.bus.fraud[a.m].pay, true);
    }
  }

  lemma {:induction false} RunKeepsApproved(s: State, acts: seq<Action>)
    requires Approved(s.bus.fraud, s.attempts)
    ensures Approved(Run(s, acts).bus.fraud, Run(s, acts).attempts)
    decreases |acts|
  {
    if acts != [] {
      ApplyKeepsApproved(s, acts[0]);
      RunKeepsApproved(Apply(s, acts[0]), acts[1..]);
    }
  }

  /**
   If every fraud result ever published for a payment is a rejection, nothing is
   ever booked under its id and it is never SUCCESS.
   */
  lemma RejectedMovesNothing(requests: seq<Terms>, workers: nat, money: Db, acts: seq<Action>, id: PayId)
    requires NoPaymentsBooked(money) && IsPaymentRef(id)
    requires forall f :: f in Run(Init(requests, workers, money), acts).bus.fraud && f.pay == id ==> !f.approved
    ensures var s := Run(Init(requests, workers, money), acts);
            && L.RefCount(s.money.ledger, id) == 0
            && (id in s.db.status ==> s.db.status[id] != SUCCESS)
  {
    Reachable(requests, workers, money, acts);
    RunKeepsApproved(Init(requests, workers, money), acts);
    hide Run, Init, Rows;
    var s := Run(Init(requests, workers, money), acts);
    forall a | 0 <= a < |s.attempts| && s.attempts[a].pay == id
      ensures !s.attempts[a].moved && (s.attempts[a].recorded ==> s.db.status[id] != SUCCESS)
    {
      assert Consistent(s.db.status, s.attempts[a]) && !Engaged(s.attempts[a]);
    }
    TallyPositive(s.attempts, id);
    assert id in s.db.status && s.db.status[id] != PENDING ==> HasRecorded(s.attempts, id);
  }

  /** Rows may be added, and PENDING may turn into something else; nothing more happens to statuses. */
  ghost predicate Evolves(before: map<PayId, Status>, after: map<PayId, Status>) {
    forall id :: id in before ==> id in after && (before[id] == PENDING || after[id] == before[id])
  }

  lemma AttemptEvolves(b: Back, t: Terms, a: Action)
    requires OfSaga(a) && Consistent(b.status, b.att)
    ensures Evolves(b.status, SagaAction(b, t, a).status)
  {
    AttemptProgresses(b, t, a);
  }

  lemma FrontEvolves(s: State, a: Action)
    requires OfCall(a) && a.c < |s.calls| && CallOk(s.db.terms, s.calls[a.c]) && s.db.terms.Keys == s.db.status.Keys
    ensures Evolves(s.db.status, CallAction(s, a).db.status)
  {
    var g := CallAction(s, a);
    assert g.db == s.db || (s.calls[a.c].pc.AtCommit? && g.db == Committed(s.db, s.calls[a.c].pc.pending, s.calls[a.c].pc.rows));
  }

  lemma SagaEvolves(s: State, a: Action)
    requires SettledOnce(s.db.status, s.attempts) && OfSaga(a)
    ensures Evolves(s.db.status, ApplySaga(s, a).db.status)
  {
    hide SagaAction;
    if a.a < |s.attempts| && s.attempts[a.a].pay in s.db.terms {
      AttemptEvolves(BackOf(s, a.a), s.db.terms[s.attempts[a.a].pay], a);
    }
  }

  lemma CallEvolves(s: State, a: Action)
    requires CallsOk(s.db, s.calls) && s.db.terms.Keys == s.db.status.Keys && OfCall(a)
    ensures Evolves(s.db.status, ApplyCall(s, a).db.status)
  {
    hide CallAction;
    if a.c < |s.calls| {
      assert CallOk(s.db.terms, s.calls[a.c]);
      FrontEvolves(s, a);
    }
  }

  lemma OthersEvolve(s: State, a: Action)
    requires !OfCall(a) && !OfSaga(a)
    ensures Evolves(s.db.status, Apply(s, a).db.status)
  {
    hide WorkerAction;
  }

  lemma ApplyEvolves(s: State, a: Action)
    requires Rows(s) && Saga(s)
    ensures Evolves(s.db.status, Apply(s, a).db.status)
  {
    hide ApplyCall, ApplySaga, ApplyWorker, ApplyOther, SettledOnce, AnnouncedOk, LedgerOk, CallsOk, Evolves;
    if OfCall(a) {
      CallEvolves(s, a);
    } else if OfSaga(a) {
      SagaEvolves(s, a);
    } else {
      OthersEvolve(s, a);
    }
  }

  /** SUCCESS and FAILED are final: no continuation of a run changes them. */
  lemma {:induction false} FinalStatusStays(s: State, acts: seq<Action>, id: PayId)
    requires Rows(s) && Saga(s) && id in s.db.status && s.db.status[id] != PENDING
    ensures id in Run(s, acts).db.status && Run(s, acts).db.status[id] == s.db.status[id]
    decreases |acts|
  {
    if acts != [] {
      ApplyEvolves(s, acts[0]);
      ApplyKeepsRows(s, acts[0]);
      ApplyKeepsSaga(s, acts[0]);
      FinalStatusStays(Apply(s, acts[0]), acts[1..], id);
    }
  }
}
