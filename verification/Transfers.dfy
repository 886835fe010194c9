/**
 Concurrent money transfers in the account service.

 Any number of transfers run as database transactions whose statements
 interleave arbitrarily.  A transaction buffers its own writes, holds row locks
 until it ends, and may be rolled back before any statement.
 */
module Transfers {
  import opened Accounts
  import opened Lex

  datatype Reason = Invalid | NotFound | Insufficient | VersionMismatch | DbFault

  /** Which statement of Transfer a transaction executes next, or how it ended. */
  datatype Pc =
    | Fresh | Begun | FirstLocked | BothLocked | SourceUpdated | DestUpdated | Debited | Credited
    | Committed | Aborted(why: Reason)

  /** One running Transfer: its two row reads and its uncommitted writes. */
  datatype Tx = Tx(req: Request, pc: Pc, first: Account, second: Account,
                   writes: map<Id, Account>, entries: seq<Entry>)

  /** `locks` maps a row to the transaction that holds it; `commits` is the order of commits. */
  datatype State = State(db: Db, txs: seq<Tx>, locks: map<Id, nat>, commits: seq<nat>)

  datatype Action = Exec(t: nat) | Fault(t: nat)

  /** The row locked first: the smaller id. */
  function First(r: Request): Id {
    if Less(r.to, r.from) then r.to else r.from
  }

  function Second(r: Request): Id {
    if Less(r.to, r.from) then r.from else r.to
  }

  function SourceRead(tx: Tx): Account {
    if First(tx.req) == tx.req.from then tx.first else tx.second
  }

  function DestRead(tx: Tx): Account {
    if First(tx.req) == tx.req.from then tx.second else tx.first
  }

  predicate Live(tx: Tx) {
    !tx.pc.Committed? && !tx.pc.Aborted?
  }

  /** Is row `id` locked by a transaction other than `t`? */
  predicate Busy(s: State, t: nat, id: Id) {
    id in s.locks && s.locks[id] != t
  }

  function WithoutLocks(locks: map<Id, nat>, t: nat): map<Id, nat> {
    map id | id in locks && locks[id] != t :: locks[id]
  }

  function Ended(tx: Tx, pc: Pc): Tx {
    tx.(pc := pc, writes := map[], entries := [])
  }

  function Abort(s: State, t: nat, why: Reason): State
    requires t < |s.txs|
  {
    s.(locks := WithoutLocks(s.locks, t), txs := s.txs[t := Ended(s.txs[t], Aborted(why))])
  }

  /** SELECT ... FOR UPDATE: waits for the row, then reads its latest committed version. */
  function LockRow(s: State, t: nat, id: Id, tx: Account -> Tx): State
    requires t < |s.txs|
  {
    if id !in s.db.rows then Abort(s, t, NotFound)
    else if Busy(s, t, id) then s
    else s.(locks := s.locks[id := t], txs := s.txs[t := tx(s.db.rows[id])])
  }

  /** The row as transaction `tx` sees it: its own uncommitted version first. */
  function Visible(s: State, tx: Tx, id: Id): Account
    requires id in s.db.rows
  {
    if id in tx.writes then tx.writes[id] else s.db.rows[id]
  }

  /** UPDATE ... WHERE id = ? AND version = ?, which also takes the row lock. */
  function UpdateRow(s: State, t: nat, id: Id, balance: int, version: int, next: Pc): State
    requires t < |s.txs|
  {
    var tx := s.txs[t];
    if id !in s.db.rows || (!Busy(s, t, id) && Visible(s, tx, id).version != version) then
      Abort(s, t, VersionMismatch)
    else if Busy(s, t, id) then s
    else
      s.(locks := s.locks[id := t],
         txs := s.txs[t := tx.(pc := next, writes := tx.writes[id := Account(balance, version + 1)])])
  }

  function AddEntry(s: State, t: nat, e: Entry, next: Pc): State
    requires t < |s.txs|
  {
    s.(txs := s.txs[t := s.txs[t].(pc := next, entries := s.txs[t].entries + [e])])
  }

  function Commit(s: State, t: nat): State
    requires t < |s.txs|
  {
    var tx := s.txs[t];
    State(Db(s.db.rows + tx.writes, s.db.ledger + tx.entries),
          s.txs[t := Ended(tx, Committed)],
          WithoutLocks(s.locks, t),
          s.commits + [t])
  }

  /** The next statement of transaction `t`; the state itself if `t` has to wait or has ended. */
  function Step(s: State, t: nat): State
    requires t < |s.txs|
  {
    var tx := s.txs[t];
    var r := tx.req;
    match tx.pc
    case Fresh =>
      if Sane(r) then s.(txs := s.txs[t := tx.(pc := Begun)]) else Abort(s, t, Invalid)
    case Begun =>
      LockRow(s, t, First(r), a => tx.(pc := FirstLocked, first := a))
    case FirstLocked =>
      LockRow(s, t, Second(r), a => tx.(pc := BothLocked, second := a))
    case BothLocked =>
      var src := SourceRead(tx);
      if src.balance < r.amount then Abort(s, t, Insufficient)
      else UpdateRow(s, t, r.from, src.balance - r.amount, src.version, SourceUpdated)
    case SourceUpdated =>
      var dst := DestRead(tx);
      UpdateRow(s, t, r.to, dst.balance + r.amount, dst.version, DestUpdated)
    case DestUpdated => AddEntry(s, t, DebitOf(r), Debited)
    case Debited => AddEntry(s, t, CreditOf(r), Credited)
    case Credited => Commit(s, t)
    case Committed => s
    case Aborted(_) => s
  }

  /** Any statement of any live transaction may fail; the transaction is then rolled back. */
  function Apply(s: State, a: Action): State {
    if a.t >= |s.txs| then s
    else match a
      case Exec(t) => Step(s, t)
      case Fault(t) => if Live(s.txs[t]) then Abort(s, t, DbFault) else s
  }

  /** The state after any interleaving of statements and rollbacks. */
  function Run(s: State, acts: seq<Action>): State
    decreases |acts|
  {
    if acts == [] then s else Run(Apply(s, acts[0]), acts[1..])
  }

  const NO_READ := Account(0, 0)

  function Init(db: Db, reqs: seq<Request>): State {
    State(db, seq(|reqs|, i requires 0 <= i < |reqs| => Tx(reqs[i], Fresh, NO_READ, NO_READ, map[], [])), map[], [])
  }

  // ---------------------------------------------------------------------------
  // What every reachable state satisfies
  // ---------------------------------------------------------------------------

  function Rank(pc: Pc): nat {
    match pc
    case Fresh => 0
    case Begun => 1
    case FirstLocked => 2
    case BothLocked => 3
    case SourceUpdated => 4
    case DestUpdated => 5
    case Debited => 6
    case Credited => 7
    case Committed => 8
    case Aborted(_) => 8
  }

  /** The rows a transaction has locked. */
  function Held(tx: Tx): set<Id> {
    if Rank(tx.pc) == 2 then {First(tx.req)}
    else if 3 <= Rank(tx.pc) <= 7 then {First(tx.req), Second(tx.req)}
    else {}
  }

  ghost predicate LocksOk(txs: seq<Tx>, locks: map<Id, nat>) {
    && (forall id :: id in locks ==> locks[id] < |txs| && id in Held(txs[locks[id]]))
    && (forall t, id :: 0 <= t < |txs| && id in Held(txs[t]) ==> id in locks && locks[id] == t)
  }

  /** A live transaction has read current rows and buffered exactly its part of Move. */
  ghost predicate TxOk(db: Db, tx: Tx) {
    var n := Rank(tx.pc);
    var r := tx.req;
    && tx.pc != Aborted(VersionMismatch)
    && (1 <= n <= 7 ==> Sane(r))
    && (2 <= n <= 7 ==> First(r) in db.rows && tx.first == db.rows[First(r)])
    && (3 <= n <= 7 ==> Second(r) in db.rows && tx.second == db.rows[Second(r)])
    && (4 <= n <= 7 ==> Accepts(db, r))
    && (n <= 3 || n == 8 ==> tx.writes == map[])
    && (n == 4 ==> tx.writes == map[r.from := Touch(db.rows[r.from], -r.amount)])
    && (5 <= n <= 7 ==> tx.writes == map[r.from := Touch(db.rows[r.from], -r.amount), r.to := Touch(db.rows[r.to], r.amount)])
    && tx.entries == (if n == 6 then [DebitOf(r)] else if n == 7 then [DebitOf(r), CreditOf(r)] else [])
  }

  ghost predicate CommitsOk(txs: seq<Tx>, commits: seq<nat>) {
    && (forall i :: 0 <= i < |commits| ==> commits[i] < |txs| && txs[commits[i]].pc.Committed?)
    && (forall t :: 0 <= t < |txs| && txs[t].pc.Committed? ==> t in commits)
    && (forall i, j :: 0 <= i < j < |commits| ==> commits[i] != commits[j])
  }

  ghost predicate Inv(s: State, db0: Db, reqs: seq<Request>) {
    && |s.txs| == |reqs|
    && (forall t :: 0 <= t < |s.txs| ==> s.txs[t].req == reqs[t] && TxOk(s.db, s.txs[t]))
    && LocksOk(s.txs, s.locks)
    && CommitsOk(s.txs, s.commits)
    && AllAccepted(db0, reqs, s.commits)
    && s.db == Serial(db0, reqs, s.commits)
  }

  lemma FirstBeforeSecond(r: Request)
    requires r.from != r.to
    ensures Less(First(r), Second(r)) && {First(r), Second(r)} == {r.from, r.to}
  {
    Total(r.from, r.to);
  }

  /** Ending a transaction that holds its locks frees exactly those. */
  lemma EndKeepsLocks(txs: seq<Tx>, locks: map<Id, nat>, t: nat, tx: Tx)
    requires t < |txs| && LocksOk(txs, locks) && Held(tx) == {}
    ensures LocksOk(txs[t := tx], WithoutLocks(locks, t))
  {
  }

  lemma GrantKeepsLocks(txs: seq<Tx>, locks: map<Id, nat>, t: nat, tx: Tx, id: Id)
    requires t < |txs| && LocksOk(txs, locks)
    requires id in locks ==> locks[id] == t
    requires Held(tx) == Held(txs[t]) + {id}
    ensures LocksOk(txs[t := tx], locks[id := t])
  {
  }

  /** A step of `t` that does not commit keeps the invariant if it keeps t's own part and the locks. */
  lemma LocalKeepsInv(s: State, t: nat, tx: Tx, locks: map<Id, nat>, db0: Db, reqs: seq<Request>)
    requires Inv(s, db0, reqs) && t < |s.txs| && Live(s.txs[t])
    requires tx.req == s.txs[t].req && !tx.pc.Committed? && TxOk(s.db, tx)
    requires LocksOk(s.txs[t := tx], locks)
    ensures Inv(s.(txs := s.txs[t := tx], locks := locks), db0, reqs)
  {
  }

  lemma AbortKeepsInv(s: State, t: nat, why: Reason, db0: Db, reqs: seq<Request>)
    requires Inv(s, db0, reqs) && t < |s.txs| && Live(s.txs[t]) && why != VersionMismatch
    ensures Inv(Abort(s, t, why), db0, reqs)
  {
    var tx := Ended(s.txs[t], Aborted(why));
    EndKeepsLocks(s.txs, s.locks, t, tx);
    LocalKeepsInv(s, t, tx, WithoutLocks(s.locks, t), db0, reqs);
  }

  lemma LockKeepsInv(s: State, t: nat, db0: Db, reqs: seq<Request>)
    requires Inv(s, db0, reqs) && t < |s.txs| && (s.txs[t].pc.Begun? || s.txs[t].pc.FirstLocked?)
    ensures Inv(Step(s, t), db0, reqs)
  {
    var tx := s.txs[t];
    var id := if tx.pc.Begun? then First(tx.req) else Second(tx.req);
    if id !in s.db.rows {
      AbortKeepsInv(s, t, NotFound, db0, reqs);
    } else if !Busy(s, t, id) {
      var tx' := if tx.pc.Begun? then tx.(pc := FirstLocked, first := s.db.rows[id])
                 else tx.(pc := BothLocked, second := s.db.rows[id]);
      assert TxOk(s.db, tx');
      GrantKeepsLocks(s.txs, s.locks, t, tx', id);
      LocalKeepsInv(s, t, tx', s.locks[id := t], db0, reqs);
    }
  }

  /** What a transaction about to update a row has read is that row as it stands. */
  lemma ReadIsCurrent(db: Db, tx: Tx)
    requires TxOk(db, tx) && (tx.pc.BothLocked? || tx.pc.SourceUpdated?)
    ensures tx.req.from in db.rows && tx.req.to in db.rows && tx.req.from != tx.req.to
    ensures SourceRead(tx) == db.rows[tx.req.from] && DestRead(tx) == db.rows[tx.req.to]
    ensures tx.req.from in Held(tx) && tx.req.to in Held(tx)
  {
    FirstBeforeSecond(tx.req);
  }

  /** The two row updates of a funded transaction, as Move makes them. */
  function Updated(tx: Tx): Tx {
    if tx.pc.BothLocked? then
      tx.(pc := SourceUpdated, writes := tx.writes[tx.req.from := Touch(SourceRead(tx), -tx.req.amount)])
    else
      tx.(pc := DestUpdated, writes := tx.writes[tx.req.to := Touch(DestRead(tx), tx.req.amount)])
  }

  lemma UpdateIsPartOfMove(db: Db, tx: Tx)
    requires TxOk(db, tx) && (tx.pc.BothLocked? || tx.pc.SourceUpdated?)
    requires tx.pc.BothLocked? ==> SourceRead(tx).balance >= tx.req.amount
    ensures TxOk(db, Updated(tx)) && Held(Updated(tx)) == Held(tx)
  {
    ReadIsCurrent(db, tx);
  }

  /** What the statements between the second lock and the commit do to their transaction. */
  function Worked(tx: Tx): Tx
    requires 3 <= Rank(tx.pc) <= 6
  {
    match tx.pc
    case BothLocked => Updated(tx)
    case SourceUpdated => Updated(tx)
    case DestUpdated => tx.(pc := Debited, entries := tx.entries + [DebitOf(tx.req)])
    case Debited => tx.(pc := Credited, entries := tx.entries + [CreditOf(tx.req)])
  }

  predicate Funded(tx: Tx) {
    tx.pc.BothLocked? ==> SourceRead(tx).balance >= tx.req.amount
  }

  lemma WorkIsPartOfMove(db: Db, tx: Tx)
    requires TxOk(db, tx) && 3 <= Rank(tx.pc) <= 6 && Funded(tx)
    ensures TxOk(db, Worked(tx)) && Held(Worked(tx)) == Held(tx)
  {
    if Rank(tx.pc) <= 4 {
      UpdateIsPartOfMove(db, tx);
    }
  }

  /** Under row locks the version check of UpdateAccountBalance passes and nobody is waited for. */
  lemma WorkGoesThrough(s: State, t: nat)
    requires t < |s.txs| && TxOk(s.db, s.txs[t]) && LocksOk(s.txs, s.locks) && 3 <= Rank(s.txs[t].pc) <= 6
    ensures Step(s, t) ==
            if Funded(s.txs[t]) then s.(txs := s.txs[t := Worked(s.txs[t])]) else Abort(s, t, Insufficient)
  {
    var tx := s.txs[t];
    if Rank(tx.pc) <= 4 && Funded(tx) {
      ReadIsCurrent(s.db, tx);
      var id := if tx.pc.BothLocked? then tx.req.from else tx.req.to;
      assert s.locks[id := t] == s.locks;
      assert id !in tx.writes;
    }
  }

  lemma WorkKeepsInv(s: State, t: nat, db0: Db, reqs: seq<Request>)
    requires Inv(s, db0, reqs) && t < |s.txs| && 3 <= Rank(s.txs[t].pc) <= 6
    ensures Inv(Step(s, t), db0, reqs)
  {
    WorkGoesThrough(s, t);
    if Funded(s.txs[t]) {
      WorkIsPartOfMove(s.db, s.txs[t]);
      WorkedKeepsLocks(s.txs, s.locks, t);
      LocalKeepsInv(s, t, Worked(s.txs[t]), s.locks, db0, reqs);
    } else {
      AbortKeepsInv(s, t, Insufficient, db0, reqs);
    }
  }

  lemma WorkedKeepsLocks(txs: seq<Tx>, locks: map<Id, nat>, t: nat)
    requires t < |txs| && LocksOk(txs, locks) && 3 <= Rank(txs[t].pc) <= 6
    ensures LocksOk(txs[t := Worked(txs[t])], locks)
  {
    var txs' := txs[t := Worked(txs[t])];
    assert forall u :: 0 <= u < |txs| ==> Held(txs'[u]) == Held(txs[u]);
  }

  /** Committing replaces the two locked rows and appends the pair of entries: it is Move. */
  lemma CommitIsMove(s: State, t: nat)
    requires t < |s.txs| && s.txs[t].pc.Credited? && TxOk(s.db, s.txs[t])
    ensures Accepts(s.db, s.txs[t].req) && Commit(s, t).db == Move(s.db, s.txs[t].req)
  {
    var r := s.txs[t].req;
    assert s.db.rows + s.txs[t].writes == Move(s.db, r).rows;
  }

  /** A move leaves alone whatever other transactions have locked and read. */
  lemma MoveKeepsTx(db: Db, r: Request, tx: Tx)
    requires Accepts(db, r) && TxOk(db, tx)
    requires r.from !in Held(tx) && r.to !in Held(tx)
    ensures TxOk(Move(db, r), tx)
  {
    if 4 <= Rank(tx.pc) <= 7 {
      FirstBeforeSecond(tx.req);
      assert Held(tx) == {tx.req.from, tx.req.to};
    }
  }

  /** The other transactions hold neither row of a committing one. */
  lemma LocksExclude(txs: seq<Tx>, locks: map<Id, nat>, t: nat, u: nat)
    requires LocksOk(txs, locks) && t < |txs| && u < |txs| && t != u && 3 <= Rank(txs[t].pc) <= 7
    requires txs[t].req.from != txs[t].req.to
    ensures txs[t].req.from !in Held(txs[u]) && txs[t].req.to !in Held(txs[u])
  {
    FirstBeforeSecond(txs[t].req);
    var r := txs[t].req;
    assert r.from in {First(r), Second(r)} && r.to in {First(r), Second(r)};
    assert r.from in Held(txs[t]) && r.to in Held(txs[t]);
    assert locks[r.from] == t && locks[r.to] == t;
  }

  lemma CommitKeepsOrder(txs: seq<Tx>, commits: seq<nat>, t: nat, tx: Tx)
    requires t < |txs| && CommitsOk(txs, commits) && !txs[t].pc.Committed? && tx.pc.Committed?
    ensures CommitsOk(txs[t := tx], commits + [t])
  {
    var txs', commits' := txs[t := tx], commits + [t];
    forall u | 0 <= u < |txs'| && txs'[u].pc.Committed? ensures u in commits' {
      assert u == t ==> commits'[|commits|] == u;
    }
  }

  lemma CommitKeepsOthers(s: State, t: nat, u: nat)
    requires LocksOk(s.txs, s.locks) && t < |s.txs| && s.txs[t].pc.Credited? && TxOk(s.db, s.txs[t])
    requires u < |s.txs| && u != t && TxOk(s.db, s.txs[u])
    ensures TxOk(Move(s.db, s.txs[t].req), s.txs[u])
  {
    CommitIsMove(s, t);
    LocksExclude(s.txs, s.locks, t, u);
    MoveKeepsTx(s.db, s.txs[t].req, s.txs[u]);
  }

  lemma CommitExtendsSerial(db0: Db, reqs: seq<Request>, commits: seq<nat>, t: nat)
    requires Indices(commits, |reqs|) && AllAccepted(db0, reqs, commits)
    requires t < |reqs| && Accepts(Serial(db0, reqs, commits), reqs[t])
    ensures AllAccepted(db0, reqs, commits + [t])
    ensures Serial(db0, reqs, commits + [t]) == Move(Serial(db0, reqs, commits), reqs[t])
  {
    assert (commits + [t])[..|commits|] == commits;
  }

  lemma CommitKeepsTxs(s: State, t: nat, reqs: seq<Request>)
    requires LocksOk(s.txs, s.locks) && t < |s.txs| && s.txs[t].pc.Credited? && |s.txs| == |reqs|
    requires forall u :: 0 <= u < |s.txs| ==> s.txs[u].req == reqs[u] && TxOk(s.db, s.txs[u])
    ensures var s' := Commit(s, t); forall u :: 0 <= u < |s'.txs| ==> s'.txs[u].req == reqs[u] && TxOk(s'.db, s'.txs[u])
  {
    CommitIsMove(s, t);
    var s' := Commit(s, t);
    assert TxOk(s'.db, s'.txs[t]);
    forall u | 0 <= u < |s'.txs| ensures s'.txs[u].req == reqs[u] && TxOk(s'.db, s'.txs[u]) {
      if u != t {
        hide TxOk, LocksOk, Move, Accepts;
        CommitKeepsOthers(s, t, u);
      }
    }
  }

  lemma CommitKeepsInv(s: State, t: nat, db0: Db, reqs: seq<Request>)
    requires Inv(s, db0, reqs) && t < |s.txs| && s.txs[t].pc.Credited?
    ensures Inv(Commit(s, t), db0, reqs)
  {
    CommitKeepsTxs(s, t, reqs);
    CommitIsMove(s, t);
    var tx := Ended(s.txs[t], Committed);
    EndKeepsLocks(s.txs, s.locks, t, tx);
    CommitKeepsOrder(s.txs, s.commits, t, tx);
    hide TxOk, LocksOk, Move, Accepts, CommitsOk;
    CommitExtendsSerial(db0, reqs, s.commits, t);
  }

  lemma StepKeepsInv(s: State, t: nat, db0: Db, reqs: seq<Request>)
    requires Inv(s, db0, reqs) && t < |s.txs|
    ensures Inv(Step(s, t), db0, reqs)
  {
    var tx := s.txs[t];
    match tx.pc
    case Fresh =>
      if Sane(tx.req) {
        LocalKeepsInv(s, t, tx.(pc := Begun), s.locks, db0, reqs);
      } else {
        AbortKeepsInv(s, t, Invalid, db0, reqs);
      }
    case Begun => LockKeepsInv(s, t, db0, reqs);
    case FirstLocked => LockKeepsInv(s, t, db0, reqs);
    case BothLocked => WorkKeepsInv(s, t, db0, reqs);
    case SourceUpdated => WorkKeepsInv(s, t, db0, reqs);
    case DestUpdated => WorkKeepsInv(s, t, db0, reqs);
    case Debited => WorkKeepsInv(s, t, db0, reqs);
    case Credited => CommitKeepsInv(s, t, db0, reqs);
    case Committed =>
    case Aborted(_) =>
  }

  lemma ApplyKeepsInv(s: State, a: Action, db0: Db, reqs: seq<Request>)
    requires Inv(s, db0, reqs)
    ensures Inv(Apply(s, a), db0, reqs)
  {
    if a.t < |s.txs| {
      if a.Exec? {
        StepKeepsInv(s, a.t, db0, reqs);
      } else if Live(s.txs[a.t]) {
        AbortKeepsInv(s, a.t, DbFault, db0, reqs);
      }
    }
  }

  lemma {:induction false} RunKeepsInv(s: State, acts: seq<Action>, db0: Db, reqs: seq<Request>)
    requires Inv(s, db0, reqs)
    ensures Inv(Run(s, acts), db0, reqs)
    decreases |acts|
  {
    if acts != [] {
      ApplyKeepsInv(s, acts[0], db0, reqs);
      RunKeepsInv(Apply(s, acts[0]), acts[1..], db0, reqs);
    }
  }

  /**
   Serializability.  However the statements of any transfers interleave, and
   whichever are rolled back, the tables are those of running the committed
   transfers one at a time in commit order, each of them accepted there.  No
   transfer fails on the version check.
   */
  lemma Serializability(db0: Db, reqs: seq<Request>, acts: seq<Action>)
    ensures var s := Run(Init(db0, reqs), acts);
            && |s.txs| == |reqs| && CommitsOk(s.txs, s.commits)
            && (forall t :: 0 <= t < |s.txs| ==> (s.txs[t].pc.Committed? <==> t in s.commits))
            && (forall i, j :: 0 <= i < j < |s.commits| ==> s.commits[i] != s.commits[j])
            && AllAccepted(db0, reqs, s.commits)
            && s.db == Serial(db0, reqs, s.commits)
            && forall t :: 0 <= t < |s.txs| ==> s.txs[t].pc != Aborted(VersionMismatch)
  {
    RunKeepsInv(Init(db0, reqs), acts, db0, reqs);
  }

  /** A transfer is refused for lack of funds only against the balance committed at that moment. */
  lemma FundsCheckIsCurrent(db0: Db, reqs: seq<Request>, acts: seq<Action>, t: nat)
    requires t < |reqs|
    requires var s := Run(Init(db0, reqs), acts); |s.txs| == |reqs| && s.txs[t].pc.BothLocked?
    ensures var s := Run(Init(db0, reqs), acts);
            && reqs[t].from in s.db.rows
            && Step(s, t).txs[t].pc ==
               if s.db.rows[reqs[t].from].balance < reqs[t].amount then Aborted(Insufficient) else SourceUpdated
  {
    RunKeepsInv(Init(db0, reqs), acts, db0, reqs);
    var s := Run(Init(db0, reqs), acts);
    ReadIsCurrent(s.db, s.txs[t]);
    WorkGoesThrough(s, t);
  }
}
