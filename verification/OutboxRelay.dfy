/**
 One relay worker over the outbox table: the query for the oldest pending rows,
 one pass of processBatch, and how many passes empty the outbox.
 */
module OutboxRelay {
  import opened Payments
  import opened Faults
  import opened Arithmetic

  function Pending(outbox: seq<OutboxRow>): set<nat> {
    set i: nat | i < |outbox| && !outbox[i].processed
  }

  predicate OldestFirst(outbox: seq<OutboxRow>, q: seq<nat>) {
    forall i, j :: 0 <= i < j < |q| ==> q[i] < |outbox| && q[j] < |outbox| && outbox[q[i]].createdAt <= outbox[q[j]].createdAt
  }

  predicate Distinct(q: seq<nat>) {
    forall i, j :: 0 <= i < j < |q| ==> q[i] != q[j]
  }

  function ToSet(q: seq<nat>): set<nat> {
    set i | 0 <= i < |q| :: q[i]
  }

  function Min(a: nat, b: nat): nat {
    if a < b then a else b
  }

  lemma ToSetAppend(q: seq<nat>, x: nat)
    ensures ToSet(q + [x]) == ToSet(q) + {x}
  {
    forall y | y in ToSet(q) + {x} ensures y in ToSet(q + [x]) {
      if y == x {
        assert (q + [x])[|q|] == x;
      } else {
        var i :| 0 <= i < |q| && q[i] == y;
        assert (q + [x])[i] == y;
      }
    }
  }

  /** `q` answers SELECT ... WHERE status = 'PENDING' ORDER BY created_at LIMIT limit (ties in any order). */
  ghost predicate IsBatch(outbox: seq<OutboxRow>, limit: nat, q: seq<nat>) {
    && Distinct(q) && OldestFirst(outbox, q) && ToSet(q) <= Pending(outbox)
    && |q| == Min(limit, |Pending(outbox)|)
    && (forall i, k :: 0 <= i < |q| && k in Pending(outbox) && k !in ToSet(q) ==>
          q[i] < |outbox| && outbox[q[i]].createdAt <= outbox[k].createdAt)
  }

  function MarkAll(outbox: seq<OutboxRow>, q: seq<nat>): seq<OutboxRow> {
    seq(|outbox|, i requires 0 <= i < |outbox| =>
      if i in q then outbox[i].(processed := true) else outbox[i])
  }

  function MessagesOf(outbox: seq<OutboxRow>, q: seq<nat>): seq<Message>
    requires forall i :: 0 <= i < |q| ==> q[i] < |outbox|
  {
    seq(|q|, i requires 0 <= i < |q| => MessageOf(outbox[q[i]]))
  }

  lemma {:induction false} DistinctSize(q: seq<nat>)
    requires Distinct(q)
    ensures |ToSet(q)| == |q|
  {
    if q != [] {
      var n := |q| - 1;
      DistinctSize(q[..n]);
      assert ToSet(q) == ToSet(q[..n]) + {q[n]};
    }
  }

  lemma MarkedLeavePending(outbox: seq<OutboxRow>, q: seq<nat>)
    ensures Pending(MarkAll(outbox, q)) == Pending(outbox) - ToSet(q)
  {
  }

  /** A failure-free pass takes a full batch off the pending rows, or all of them. */
  lemma PassShrinks(outbox: seq<OutboxRow>, limit: nat, q: seq<nat>)
    requires IsBatch(outbox, limit, q)
    ensures |Pending(MarkAll(outbox, q))| == |Pending(outbox)| - Min(limit, |Pending(outbox)|)
  {
    MarkedLeavePending(outbox, q);
    DistinctSize(q);
  }

  /** `tables` are the states of the outbox between consecutive failure-free passes. */
  ghost predicate Passes(tables: seq<seq<OutboxRow>>, batches: seq<seq<nat>>, limit: nat) {
    && |tables| == |batches| + 1
    && forall k :: 0 <= k < |batches| ==>
         IsBatch(tables[k], limit, batches[k]) && tables[k + 1] == MarkAll(tables[k], batches[k])
  }

  /** How many of n rows k passes leave. */
  function Left(n: nat, k: nat, limit: nat): nat {
    if n <= k * limit then 0 else n - k * limit
  }

  lemma LeftByOneMore(n: nat, k: nat, limit: nat)
    ensures Left(n, k + 1, limit) == Left(n, k, limit) - Min(limit, Left(n, k, limit))
  {
    assert (k + 1) * limit == k * limit + limit;
  }

  /** After k failure-free passes over n pending rows, max(0, n - k * limit) are left. */
  lemma {:induction false} PendingAfterPasses(tables: seq<seq<OutboxRow>>, batches: seq<seq<nat>>, limit: nat)
    requires Passes(tables, batches, limit)
    ensures |Pending(tables[|batches|])| == Left(|Pending(tables[0])|, |batches|, limit)
  {
    if batches != [] {
      var k := |batches| - 1;
      PendingAfterPasses(tables[..k + 1], batches[..k], limit);
      assert tables[..k + 1][k] == tables[k] && tables[..k + 1][0] == tables[0];
      assert IsBatch(tables[k], limit, batches[k]) && tables[k + 1] == MarkAll(tables[k], batches[k]);
      hide Passes, IsBatch, MarkAll, Pending, Left;
      PassShrinks(tables[k], limit, batches[k]);
      LeftByOneMore(|Pending(tables[0])|, k, limit);
    }
  }

  function Ceil(n: nat, d: nat): nat
    requires d > 0
  {
    (n + d - 1) / d
  }

  /** n pending rows drain in exactly ceil(n / limit) failure-free passes. */
  lemma DrainsInCeilPasses(tables: seq<seq<OutboxRow>>, batches: seq<seq<nat>>, limit: nat)
    requires limit > 0 && Passes(tables, batches, limit)
    ensures Pending(tables[|batches|]) == {} <==> |batches| >= Ceil(|Pending(tables[0])|, limit)
  {
    var n, k := |Pending(tables[0])|, |batches|;
    PendingAfterPasses(tables, batches, limit);
    CeilIsLeast(n, limit, k);
  }

  lemma CeilIsLeast(n: nat, d: nat, k: nat)
    requires d > 0
    ensures n <= k * d <==> k >= Ceil(n, d)
  {
    var c := Ceil(n, d);
    assert c * d >= n && (c > 0 ==> (c - 1) * d < n);
    if k >= c {
      assert k * d >= c * d by { MulMonotone(c, k, d); }
    } else {
      assert k * d <= (c - 1) * d by { MulMonotone(k, c - 1, d); }
    }
  }

  // ---------------------------------------------------------------------------
  // Rows that arrive between the passes
  // ---------------------------------------------------------------------------

  /** Each pass is followed by new rows; all of them are younger than the rows pending at first. */
  ghost predicate BusyPasses(tables: seq<seq<OutboxRow>>, batches: seq<seq<nat>>, arrivals: seq<seq<OutboxRow>>, limit: nat) {
    && |tables| == |batches| + 1 && |arrivals| == |batches|
    && (forall k :: 0 <= k < |batches| ==>
          IsBatch(tables[k], limit, batches[k]) && tables[k + 1] == MarkAll(tables[k], batches[k]) + arrivals[k])
    && (forall k :: 0 <= k < |arrivals| ==> Younger(tables[0], Pending(tables[0]), arrivals[k]))
  }

  ghost predicate Younger(outbox: seq<OutboxRow>, first: set<nat>, rows: seq<OutboxRow>) {
    forall i, r :: i in first && r in rows ==> i < |outbox| && outbox[i].createdAt < r.createdAt
  }

  /** The rows `first` are the oldest pending ones, strictly. */
  ghost predicate OldestPending(outbox: seq<OutboxRow>, first: set<nat>) {
    && first <= Pending(outbox)
    && (forall i, k :: i in first && k in Pending(outbox) && k !in first ==> outbox[i].createdAt < outbox[k].createdAt)
  }

  /** A pass takes as many of the oldest pending rows as it can. */
  lemma PassTakesOldest(outbox: seq<OutboxRow>, limit: nat, q: seq<nat>, first: set<nat>)
    requires IsBatch(outbox, limit, q) && OldestPending(outbox, first)
    ensures |first - ToSet(q)| == |first| - Min(limit, |first|)
  {
    DistinctSize(q);
    if first <= ToSet(q) {
      SubsetSize(first, ToSet(q));
      assert first - ToSet(q) == {};
    } else {
      var left :| left in first && left !in ToSet(q);
      OnlyOldTaken(outbox, limit, q, first, left);
      SubsetSize(ToSet(q), first);
      SubsetSize(first, Pending(outbox));
      assert first == ToSet(q) + (first - ToSet(q));
    }
  }

  lemma OnlyOldTaken(outbox: seq<OutboxRow>, limit: nat, q: seq<nat>, first: set<nat>, left: nat)
    requires IsBatch(outbox, limit, q) && OldestPending(outbox, first) && left in first && left !in ToSet(q)
    ensures ToSet(q) <= first
  {
    forall r | r in ToSet(q) ensures r in first {
      var i :| 0 <= i < |q| && q[i] == r;
      assert outbox[q[i]].createdAt <= outbox[left].createdAt;
    }
  }

  /** What remains of the oldest rows is still there after the pass and the arrivals, and still the oldest. */
  lemma StillOldest(outbox: seq<OutboxRow>, q: seq<nat>, arrived: seq<OutboxRow>, first: set<nat>)
    requires OldestPending(outbox, first) && Younger(outbox, first, arrived)
    ensures OldestPending(MarkAll(outbox, q) + arrived, first - ToSet(q))
    ensures Pending(MarkAll(outbox, q) + arrived) * first == first - ToSet(q)
  {
    var marked := MarkAll(outbox, q);
    MarkedLeavePending(outbox, q);
    forall i, k | i in first - ToSet(q) && k in Pending(marked + arrived) && k !in first - ToSet(q)
      ensures (marked + arrived)[i].createdAt < (marked + arrived)[k].createdAt
    {
      assert (marked + arrived)[i] == marked[i];
      if k >= |outbox| {
        assert (marked + arrived)[k] in arrived;
      }
    }
  }

  lemma BusyPass(was: seq<OutboxRow>, first: set<nat>, now: seq<OutboxRow>, limit: nat, q: seq<nat>, arrived: seq<OutboxRow>)
    requires IsBatch(now, limit, q) && OldestPending(now, Pending(now) * first) && Younger(was, first, arrived)
    requires KeepsTimes(was, now) && forall i :: i in first ==> i < |was|
    ensures var left, next := Pending(now) * first, MarkAll(now, q) + arrived;
            && OldestPending(next, Pending(next) * first) && KeepsTimes(was, next)
            && |Pending(next) * first| == |left| - Min(limit, |left|)
  {
    var left := Pending(now) * first;
    StillYounger(was, first, now, left, arrived);
    PassTakesOldest(now, limit, q, left);
    StillOldest(now, q, arrived, left);
    NoneRevived(now, q, arrived, first, |was|);
    hide Pending, IsBatch, OldestPending, Younger;
  }

  /** Of the n rows pending at first, max(0, n - k * limit) are left after k passes, whatever has arrived. */
  lemma {:induction false} FirstRowsLeft(tables: seq<seq<OutboxRow>>, batches: seq<seq<nat>>, arrivals: seq<seq<OutboxRow>>,
                                         limit: nat)
    requires BusyPasses(tables, batches, arrivals, limit)
    ensures var first, k := Pending(tables[0]), |batches|;
            && OldestPending(tables[k], Pending(tables[k]) * first) && KeepsTimes(tables[0], tables[k])
            && |Pending(tables[k]) * first| == Left(|first|, k, limit)
  {
    var first := Pending(tables[0]);
    if batches == [] {
      assert first * first == first;
    } else {
      var k := |batches| - 1;
      BusyPrefix(tables, batches, arrivals, limit);
      FirstRowsLeft(tables[..k + 1], batches[..k], arrivals[..k], limit);
      assert tables[..k + 1][k] == tables[k] && tables[..k + 1][0] == tables[0];
      assert IsBatch(tables[k], limit, batches[k]) && tables[k + 1] == MarkAll(tables[k], batches[k]) + arrivals[k];
      assert Younger(tables[0], first, arrivals[k]);
      hide BusyPasses, MarkAll, IsBatch, OldestPending, Younger, Left, KeepsTimes;
      BusyPass(tables[0], first, tables[k], limit, batches[k], arrivals[k]);
      LeftByOneMore(|first|, k, limit);
    }
  }

  /** The rows of the first table are still there, with their creation times. */
  ghost predicate KeepsTimes(was: seq<OutboxRow>, now: seq<OutboxRow>) {
    |was| <= |now| && forall i :: 0 <= i < |was| ==> now[i].createdAt == was[i].createdAt
  }

  lemma BusyPrefix(tables: seq<seq<OutboxRow>>, batches: seq<seq<nat>>, arrivals: seq<seq<OutboxRow>>, limit: nat)
    requires BusyPasses(tables, batches, arrivals, limit) && batches != []
    ensures var k := |batches| - 1; BusyPasses(tables[..k + 1], batches[..k], arrivals[..k], limit)
  {
    hide IsBatch, MarkAll, Younger;
  }

  lemma StillYounger(was: seq<OutboxRow>, first: set<nat>, now: seq<OutboxRow>, left: set<nat>, rows: seq<OutboxRow>)
    requires Younger(was, first, rows) && KeepsTimes(was, now) && left <= first
    ensures Younger(now, left, rows)
  {
  }

  /** A row that is not pending does not become pending again. */
  lemma NoneRevived(outbox: seq<OutboxRow>, q: seq<nat>, arrived: seq<OutboxRow>, first: set<nat>, n: nat)
    requires n <= |outbox| && forall i :: i in first ==> i < n
    ensures var next := MarkAll(outbox, q) + arrived;
            Pending(next) * first == Pending(next) * (Pending(outbox) * first)
  {
  }

  /**
   However many younger rows keep arriving, the n rows pending at first are gone
   after ceil(n / limit) failure-free passes, and not before.
   */
  lemma FirstRowsDrainInCeilPasses(tables: seq<seq<OutboxRow>>, batches: seq<seq<nat>>, arrivals: seq<seq<OutboxRow>>,
                                   limit: nat)
    requires limit > 0 && BusyPasses(tables, batches, arrivals, limit)
    ensures Pending(tables[|batches|]) * Pending(tables[0]) == {} <==> |batches| >= Ceil(|Pending(tables[0])|, limit)
  {
    var n, k := |Pending(tables[0])|, |batches|;
    FirstRowsLeft(tables, batches, arrivals, limit);
    CeilIsLeast(n, limit, k);
  }

  /** Row `i` of pass k is no younger than row `j` of a later pass: the outbox drains oldest first. */
  lemma DrainsOldestFirst(tables: seq<seq<OutboxRow>>, batches: seq<seq<nat>>, limit: nat, k: nat, l: nat, i: nat, j: nat)
    requires Passes(tables, batches, limit) && k < l < |batches| && i < |batches[k]| && j < |batches[l]|
    ensures batches[k][i] < |tables[0]| && batches[l][j] < |tables[0]|
    ensures tables[0][batches[k][i]].createdAt <= tables[0][batches[l][j]].createdAt
    ensures batches[l][j] !in ToSet(batches[k])
  {
    assert batches[l][j] in ToSet(batches[l]);
    StillPending(tables, batches, limit, k + 1, l, batches[l][j]);
    assert batches[k][i] in ToSet(batches[k]);
    SameRows(tables, batches, limit, k);
    MarkedLeavePending(tables[k], batches[k]);
  }

  lemma {:induction false} StillPending(tables: seq<seq<OutboxRow>>, batches: seq<seq<nat>>, limit: nat, k: nat, l: nat, r: nat)
    requires Passes(tables, batches, limit) && k <= l <= |batches| && r in Pending(tables[l])
    ensures r in Pending(tables[k])
    decreases l - k
  {
    if k < l {
      StillPending(tables, batches, limit, k + 1, l, r);
      MarkedLeavePending(tables[k], batches[k]);
    }
  }

  lemma {:induction false} SameRows(tables: seq<seq<OutboxRow>>, batches: seq<seq<nat>>, limit: nat, k: nat)
    requires Passes(tables, batches, limit) && k <= |batches|
    ensures |tables[k]| == |tables[0]|
    ensures forall i :: 0 <= i < |tables[0]| ==> tables[k][i].createdAt == tables[0][i].createdAt
    decreases k
  {
    if k > 0 {
      SameRows(tables, batches, limit, k - 1);
      assert tables[k] == MarkAll(tables[k - 1], batches[k - 1]);
    }
  }

  // ---------------------------------------------------------------------------
  // The worker
  // ---------------------------------------------------------------------------

  class RelayWorker {
    var outbox: seq<OutboxRow>
    var created: seq<Message>
    const batch: nat

    constructor (outbox: seq<OutboxRow>, batch: int)
      ensures this.outbox == outbox && created == [] && this.batch == (if batch <= 0 then 50 else batch)
    {
      this.outbox, this.created := outbox, [];
      this.batch := if batch <= 0 then 50 else batch;
    }

    /** The oldest pending row that is not yet in `q`, if any. */
    method NextOldest(q: seq<nat>) returns (best: nat, found: bool)
      ensures found <==> !(Pending(outbox) <= ToSet(q))
      ensures found ==> best in Pending(outbox) - ToSet(q)
      ensures found ==> forall k :: k in Pending(outbox) - ToSet(q) ==> outbox[best].createdAt <= outbox[k].createdAt
    {
      best, found := 0, false;
      for i := 0 to |outbox|
        invariant found ==> best < i && best in Pending(outbox) - ToSet(q)
        invariant forall k :: k in Pending(outbox) - ToSet(q) && k < i ==>
                    found && outbox[best].createdAt <= outbox[k].createdAt
      {
        if !outbox[i].processed && i !in q && (!found || outbox[i].createdAt < outbox[best].createdAt) {
          best, found := i, true;
          assert best in Pending(outbox) - ToSet(q);
        }
      }
    }

    method GetPendingOutboxEvents(limit: nat) returns (q: seq<nat>)
      ensures IsBatch(outbox, limit, q)
    {
      q := [];
      var more := true;
      while |q| < limit && more
        invariant |q| <= limit && Distinct(q) && OldestFirst(outbox, q) && ToSet(q) <= Pending(outbox)
        invariant forall i :: 0 <= i < |q| ==> q[i] < |outbox|
        invariant forall i, k :: 0 <= i < |q| && k in Pending(outbox) - ToSet(q) ==>
                    outbox[q[i]].createdAt <= outbox[k].createdAt
        invariant !more ==> Pending(outbox) == ToSet(q)
        decreases limit - |q|, more
      {
        var best, found := NextOldest(q);
        more := found;
        if found {
          ToSetAppend(q, best);
          q := q + [best];
        }
      }
      DistinctSize(q);
      SubsetSize(ToSet(q), Pending(outbox));
    }

    /**
     processBatch.  The messages of the batch whose publication took effect are
     published in batch order; PROCESSED become exactly the rows whose publication
     was reported to work and whose mark took effect.
     */
    method ProcessBatch(publish: nat -> Net, mark: nat -> Net) returns (q: seq<nat>)
      modifies this
      ensures IsBatch(old(outbox), batch, q) && InRange(old(outbox), q)
      ensures created == old(created) + MessagesOf(old(outbox), Sent(q, publish))
      ensures outbox == MarkAll(old(outbox), Settled(q, publish, mark))
      ensures |outbox| == |old(outbox)|
      ensures forall i :: 0 <= i < |outbox| ==>
                outbox[i] == if i in q && publish(i) == Works && mark(i) != Fails(false)
                             then old(outbox)[i].(processed := true) else old(outbox)[i]
    {
      q := GetPendingOutboxEvents(batch);
      BatchInRange(outbox, batch, q);
      hide IsBatch;
      RelayAll(q, publish, mark);
      SettledMeans(q, publish, mark);
    }

    /** The loop of processBatch over the fetched rows. */
    method RelayAll(q: seq<nat>, publish: nat -> Net, mark: nat -> Net)
      requires InRange(outbox, q)
      modifies this
      ensures created == old(created) + MessagesOf(old(outbox), Sent(q, publish))
      ensures outbox == MarkAll(old(outbox), Settled(q, publish, mark))
    {
      ghost var was, sent := outbox, created;
      for n := 0 to |q|
        invariant |outbox| == |was| && InRange(was, q)
        invariant created == sent + MessagesOf(was, Sent(q[..n], publish))
        invariant outbox == MarkAll(was, Settled(q[..n], publish, mark))
      {
        RelayStep(was, q, n, publish, mark);
        hide MarkAll, MessagesOf, Sent, Settled;
        RelayOne(q[n], publish(q[n]), mark(q[n]));
      }
      assert q[..|q|] == q;
    }

    /** Publish one event, then mark its row; a failed publication leaves the row alone. */
    method RelayOne(i: nat, publish: Net, mark: Net)
      requires i < |outbox|
      modifies this
      ensures var body := old(outbox)[i].payload;
              var key := if body.terms.source != "" then body.terms.source else old(outbox)[i].aggregate;
              created == if publish != Fails(false) then old(created) + [Message(key, body)] else old(created)
      ensures outbox == if publish.Works? && TakesEffect(mark) then old(outbox)[i := old(outbox)[i].(processed := true)]
                        else old(outbox)
    {
      var evt := outbox[i];
      if TakesEffect(publish) {
        created := created + [MessageOf(evt)];
      }
      if publish.Fails? {
        return;
      }
      if TakesEffect(mark) {
        outbox := outbox[i := evt.(processed := true)];
      }
    }
  }

  /** The rows of a batch whose publication takes effect. */
  function Sent(q: seq<nat>, publish: nat -> Net): (r: seq<nat>)
    ensures forall i :: 0 <= i < |r| ==> r[i] in q
  {
    if q == [] then [] else
      var n := |q| - 1;
      if TakesEffect(publish(q[n])) then Sent(q[..n], publish) + [q[n]] else Sent(q[..n], publish)
  }

  /** The rows of a batch that get marked. */
  function Settled(q: seq<nat>, publish: nat -> Net, mark: nat -> Net): (r: seq<nat>)
    ensures forall i :: 0 <= i < |r| ==> r[i] in q
  {
    if q == [] then [] else
      var n := |q| - 1;
      if publish(q[n]).Works? && TakesEffect(mark(q[n])) then Settled(q[..n], publish, mark) + [q[n]]
      else Settled(q[..n], publish, mark)
  }

  lemma {:induction false} SettledMeans(q: seq<nat>, publish: nat -> Net, mark: nat -> Net)
    ensures forall r :: r in Settled(q, publish, mark) <==> r in q && publish(r) == Works && mark(r) != Fails(false)
  {
    if q != [] {
      SettledMeans(q[..|q| - 1], publish, mark);
    }
  }

  /** The messages sent are those of the rows whose publication took effect, in the order of the batch. */
  lemma {:induction false} SentMeans(outbox: seq<OutboxRow>, q: seq<nat>, publish: nat -> Net)
    requires q != [] && InRange(outbox, q)
    ensures var n := |q| - 1;
            var row := outbox[q[n]];
            MessagesOf(outbox, Sent(q, publish)) ==
              if publish(q[n]) == Fails(false) then MessagesOf(outbox, Sent(q[..n], publish))
              else MessagesOf(outbox, Sent(q[..n], publish))
                   + [Message(if row.payload.terms.source != "" then row.payload.terms.source else row.aggregate, row.payload)]
    ensures Sent([], publish) == []
  {
  }

  lemma RelayStep(was: seq<OutboxRow>, q: seq<nat>, n: nat, publish: nat -> Net, mark: nat -> Net)
    requires n < |q| && InRange(was, q)
    ensures var now, r := MarkAll(was, Settled(q[..n], publish, mark)), q[n];
            && MessageOf(now[r]) == MessageOf(was[r])
            && MessagesOf(was, Sent(q[..n + 1], publish)) ==
               MessagesOf(was, Sent(q[..n], publish)) + (if TakesEffect(publish(r)) then [MessageOf(now[r])] else [])
            && MarkAll(was, Settled(q[..n + 1], publish, mark)) ==
               if publish(r).Works? && TakesEffect(mark(r)) then now[r := now[r].(processed := true)] else now
  {
    var more := q[..n + 1];
    assert more[..n] == q[..n] && more[n] == q[n];
  }

  /** Nothing is marked that was not sent, whatever fails. */
  lemma {:induction false} MarkedAreSent(q: seq<nat>, publish: nat -> Net, mark: nat -> Net)
    ensures ToSet(Settled(q, publish, mark)) <= ToSet(Sent(q, publish))
  {
    if q != [] {
      var n := |q| - 1;
      MarkedAreSent(q[..n], publish, mark);
      ToSetAppend(Sent(q[..n], publish), q[n]);
      ToSetAppend(Settled(q[..n], publish, mark), q[n]);
    }
  }

  /** Without failures the whole batch is sent and marked: a pass as counted above. */
  lemma {:induction false} CleanPass(q: seq<nat>, publish: nat -> Net, mark: nat -> Net)
    requires forall i :: publish(i).Works? && mark(i).Works?
    ensures Sent(q, publish) == q && Settled(q, publish, mark) == q
  {
    if q != [] {
      CleanPass(q[..|q| - 1], publish, mark);
    }
  }

  predicate InRange(outbox: seq<OutboxRow>, q: seq<nat>) {
    forall i :: 0 <= i < |q| ==> q[i] < |outbox|
  }

  lemma BatchInRange(outbox: seq<OutboxRow>, limit: nat, q: seq<nat>)
    requires IsBatch(outbox, limit, q)
    ensures InRange(outbox, q)
  {
    assert forall i :: 0 <= i < |q| ==> q[i] in ToSet(q);
  }

  lemma {:induction false} SubsetSize(a: set<nat>, b: set<nat>)
    requires a <= b
    ensures |a| <= |b| && (|a| == |b| ==> a == b)
    decreases a
  {
    if a != {} {
      var x :| x in a;
      SubsetSize(a - {x}, b - {x});
      assert a == (a - {x}) + {x} && b == (b - {x}) + {x};
    } else {
      assert |b| == 0 ==> b == {};
    }
  }
}
