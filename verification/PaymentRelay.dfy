/**
 The outbox relay: delivery at least once under any failures and any number of
 concurrent workers.
 */
module PaymentRelay {
  import opened Accounts
  import opened Payments
  import opened PaymentRows
  import opened Faults

  // ---------------------------------------------------------------------------
  // At least once, in every run of the whole system
  // ---------------------------------------------------------------------------

  /** A worker that is about to mark a row has published that row. */
  predicate WorkerOk(outbox: seq<OutboxRow>, created: seq<Message>, w: Worker) {
    && (forall i :: 0 <= i < |w.queue| ==> w.queue[i] < |outbox|)
    && (w.sent ==> w.queue != [] && MessageOf(outbox[w.queue[0]]) in created)
  }

  /** Only outbox rows, which are committed, are published; marked rows have been published. */
  ghost predicate Relayed(outbox: seq<OutboxRow>, created: seq<Message>) {
    && (forall i :: 0 <= i < |outbox| && outbox[i].processed ==> MessageOf(outbox[i]) in created)
    && (forall m :: m in created ==> exists i :: 0 <= i < |outbox| && m == MessageOf(outbox[i]))
  }

  ghost predicate Relay(s: State) {
    && Relayed(s.db.outbox, s.bus.created)
    && forall w :: 0 <= w < |s.workers| ==> WorkerOk(s.db.outbox, s.bus.created, s.workers[w])
  }

  /** Rows keep their place and their message; topics only grow. */
  ghost predicate Grows(outbox: seq<OutboxRow>, outbox': seq<OutboxRow>, created: seq<Message>, created': seq<Message>) {
    && |outbox| <= |outbox'| && created <= created'
    && forall i :: 0 <= i < |outbox| ==> MessageOf(outbox[i]) == MessageOf(outbox'[i])
  }

  lemma GrowthKeepsWorker(outbox: seq<OutboxRow>, outbox': seq<OutboxRow>, created: seq<Message>, created': seq<Message>, w: Worker)
    requires Grows(outbox, outbox', created, created') && WorkerOk(outbox, created, w)
    ensures WorkerOk(outbox', created', w)
  {
  }

  lemma PublishKeepsRelayed(l: Lane)
    requires Busy(l) && Relayed(l.outbox, l.created)
    ensures Relayed(l.outbox, Published(l)) && MessageOf(l.outbox[l.worker.queue[0]]) in Published(l)
  {
    var m := MessageOf(l.outbox[l.worker.queue[0]]);
    assert Published(l)[|l.created|] == m;
    forall n | n in Published(l) ensures exists i :: 0 <= i < |l.outbox| && n == MessageOf(l.outbox[i]) {
      assert n in l.created || n == m;
    }
  }

  lemma MarkKeepsRelayed(l: Lane)
    requires Busy(l) && Relayed(l.outbox, l.created) && MessageOf(l.outbox[l.worker.queue[0]]) in l.created
    ensures Relayed(Marked(l), l.created)
  {
    forall n | n in l.created ensures exists i :: 0 <= i < |Marked(l)| && n == MessageOf(Marked(l)[i]) {
      var i :| 0 <= i < |l.outbox| && n == MessageOf(l.outbox[i]);
      assert n == MessageOf(Marked(l)[i]);
    }
  }

  lemma LaneKeepsRelayed(l: Lane, a: Action)
    requires OfWorker(a) && Relayed(l.outbox, l.created) && WorkerOk(l.outbox, l.created, l.worker)
    ensures var l' := WorkerAction(l, a);
            && Relayed(l'.outbox, l'.created) && WorkerOk(l'.outbox, l'.created, l'.worker)
            && Grows(l.outbox, l'.outbox, l.created, l'.created)
  {
    if Busy(l) {
      PublishKeepsRelayed(l);
      if l.worker.sent {
        MarkKeepsRelayed(l);
      }
    }
  }

  lemma OutboxGrowthKeepsRelay(s: State, outbox: seq<OutboxRow>)
    requires Relay(s) && s.db.outbox <= outbox
    requires forall i :: |s.db.outbox| <= i < |outbox| ==> !outbox[i].processed
    ensures Relayed(outbox, s.bus.created)
    ensures forall w :: 0 <= w < |s.workers| ==> WorkerOk(outbox, s.bus.created, s.workers[w])
  {
    forall m | m in s.bus.created ensures exists i :: 0 <= i < |outbox| && m == MessageOf(outbox[i]) {
      var i :| 0 <= i < |s.db.outbox| && m == MessageOf(s.db.outbox[i]);
      assert m == MessageOf(outbox[i]);
    }
    forall w | 0 <= w < |s.workers| ensures WorkerOk(outbox, s.bus.created, s.workers[w]) {
      GrowthKeepsWorker(s.db.outbox, outbox, s.bus.created, s.bus.created, s.workers[w]);
    }
  }

  lemma CallKeepsRelay(s: State, a: Action)
    requires Rows(s) && Relay(s) && OfCall(a) && a.c < |s.calls|
    ensures Relay(WithFront(s, a.c, CallAction(s, a)))
  {
    var g := CallAction(s, a);
    assert CallOk(s.db.terms, s.calls[a.c]);
    assert g.db == s.db || (s.calls[a.c].pc.AtCommit? && g.db == Committed(s.db, s.calls[a.c].pc.pending, s.calls[a.c].pc.rows));
    OutboxGrowthKeepsRelay(s, g.db.outbox);
  }

  lemma WorkerKeepsRelay(s: State, a: Action)
    requires Relay(s) && OfWorker(a) && a.w < |s.workers|
    ensures Relay(ApplyWorker(s, a))
  {
    var l := Lane(s.db.outbox, s.bus.created, s.workers[a.w]);
    var l' := WorkerAction(l, a);
    LaneKeepsRelayed(l, a);
    forall w | 0 <= w < |s.workers| && w != a.w ensures WorkerOk(l'.outbox, l'.created, s.workers[w]) {
      GrowthKeepsWorker(l.outbox, l'.outbox, l.created, l'.created, s.workers[w]);
    }
    assert ApplyWorker(s, a) == WithLane(s, a.w, l');
  }

  lemma OthersKeepRelay(s: State, a: Action)
    requires Relay(s) && !OfCall(a) && !OfWorker(a)
    ensures Relay(Apply(s, a))
  {
    var s' := Apply(s, a);
    assert s'.db.outbox == s.db.outbox && s'.bus.created == s.bus.created && s'.workers == s.workers;
  }

  /**
   How a worker handles the first row of its queue, undisturbed: it publishes the
   row's payload under its source account, marks the row if that is reported to
   work, and in any case goes on to the next row.
   */
  lemma WorkerHandlesRow(l: Lane, w: nat, publish: Net, mark: Net)
    requires l.worker.queue != [] && l.worker.queue[0] < |l.outbox| && !l.worker.sent
    ensures var i := l.worker.queue[0];
            var row := l.outbox[i];
            var m := Message(if row.payload.terms.source != "" then row.payload.terms.source else row.aggregate, row.payload);
            var l1 := WorkerAction(l, if publish == Works then Publish(w) else PublishFault(w, publish.applied));
            var l2 := if publish != Works then l1 else WorkerAction(l1, if mark == Works then Mark(w) else MarkFault(w, mark.applied));
            && l2.created == (if publish != Fails(false) then l.created + [m] else l.created)
            && l2.outbox == (if publish == Works && mark != Fails(false) then l.outbox[i := row.(processed := true)] else l.outbox)
            && l2.worker == Worker(l.worker.queue[1..], false)
  {
  }

  lemma {:induction false} RunKeepsRelay(s: State, acts: seq<Action>)
    requires Rows(s) && Relay(s)
    ensures Rows(Run(s, acts)) && Relay(Run(s, acts))
    decreases |acts|
  {
    if acts != [] {
      var a := acts[0];
      ApplyKeepsRows(s, a);
      if OfCall(a) {
        if a.c < |s.calls| {
          CallKeepsRelay(s, a);
        }
      } else if OfWorker(a) {
        if a.w < |s.workers| {
          WorkerKeepsRelay(s, a);
        }
      } else {
        OthersKeepRelay(s, a);
      }
      RunKeepsRelay(Apply(s, a), acts[1..]);
    }
  }

  /**
   At least once.  Through publish faults, mark faults, crashes and concurrent
   workers, every PROCESSED row has been published with its own payload under
   its source account as the key, and everything published stems from a
   committed payment.
   */
  lemma ProcessedMeansPublished(requests: seq<Terms>, workers: nat, money: Db, acts: seq<Action>)
    ensures var s := Run(Init(requests, workers, money), acts);
            && (forall i :: 0 <= i < |s.db.outbox| && s.db.outbox[i].processed ==>
                  Message(s.db.outbox[i].payload.terms.source, s.db.outbox[i].payload) in s.bus.created)
            && (forall m :: m in s.bus.created ==>
                  m.body.id in s.db.terms && m.body == Created(m.body.id, s.db.terms[m.body.id], PENDING)
                  && m.key == m.body.terms.source)
  {
    RunKeepsRelay(Init(requests, workers, money), acts);
    var s := Run(Init(requests, workers, money), acts);
    forall i | 0 <= i < |s.db.outbox|
      ensures MessageOf(s.db.outbox[i]) == Message(s.db.outbox[i].payload.terms.source, s.db.outbox[i].payload)
      ensures s.db.outbox[i].payload == Created(s.db.outbox[i].aggregate, s.db.terms[s.db.outbox[i].aggregate], PENDING)
    {
      assert Valid(s.db.terms[s.db.outbox[i].aggregate]);
    }
  }
}
