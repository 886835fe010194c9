/**
 The account service over mutable tables: repository statements that change
 rows, locks and transaction buffers in place, and Transfer built from them.
 Every method is tied to the step function of module Transfers.
 */
module TransferStore {
  import opened Accounts
  import opened Transfers

  /** SELECT ... FOR UPDATE finds no row, has to wait, or returns the locked row. */
  datatype Fetched = Missing | MustWait | Row(account: Account)

  /** A guarded UPDATE has to wait, matches no row, or matches one. */
  datatype Updates = Blocked | NoRows | OneRow

  class Store {
    var rows: map<Id, Account>
    var ledger: seq<Entry>
    var locks: map<Id, nat>
    var txs: seq<Tx>
    ghost var commits: seq<nat>

    ghost function View(): State
      reads this
    {
      State(Db(rows, ledger), txs, locks, commits)
    }

    constructor (db: Db, reqs: seq<Request>)
      ensures View() == Init(db, reqs)
    {
      rows := db.rows;
      ledger := db.ledger;
      locks := map[];
      txs := Init(db, reqs).txs;
      commits := [];
    }

    method GetAccountByIDWithLock(t: nat, id: Id) returns (f: Fetched)
      requires t < |txs|
      modifies this`locks
      ensures f.Missing? <==> id !in rows
      ensures f.MustWait? <==> id in rows && Busy(old(View()), t, id)
      ensures f.Row? ==> f.account == rows[id]
      ensures locks == if f.Row? then old(locks)[id := t] else old(locks)
    {
      if id !in rows {
        return Missing;
      }
      if id in locks && locks[id] != t {
        return MustWait;
      }
      locks := locks[id := t];
      return Row(rows[id]);
    }

    method UpdateAccountBalance(t: nat, id: Id, newBalance: int, oldVersion: int) returns (u: Updates)
      requires t < |txs|
      modifies this`locks, this`txs
      ensures u.Blocked? <==> id in rows && Busy(old(View()), t, id)
      ensures u.OneRow? <==> id in rows && !u.Blocked? && Visible(old(View()), old(txs[t]), id).version == oldVersion
      ensures locks == if u.OneRow? then old(locks)[id := t] else old(locks)
      ensures txs == if u.OneRow? then
                       old(txs)[t := old(txs)[t].(writes := old(txs)[t].writes[id := Account(newBalance, oldVersion + 1)])]
                     else old(txs)
    {
      if id !in rows {
        return NoRows;
      }
      if id in locks && locks[id] != t {
        return Blocked;
      }
      var current := if id in txs[t].writes then txs[t].writes[id] else rows[id];
      if current.version != oldVersion {
        return NoRows;
      }
      locks := locks[id := t];
      txs := txs[t := txs[t].(writes := txs[t].writes[id := Account(newBalance, current.version + 1)])];
      return OneRow;
    }

    method CreateLedgerEntry(t: nat, e: Entry)
      requires t < |txs|
      modifies this`txs
      ensures txs == old(txs)[t := old(txs)[t].(entries := old(txs)[t].entries + [e])]
    {
      txs := txs[t := txs[t].(entries := txs[t].entries + [e])];
    }

    method CommitTx(t: nat)
      requires t < |txs|
      modifies this
      ensures View() == Commit(old(View()), t)
    {
      rows := rows + txs[t].writes;
      ledger := ledger + txs[t].entries;
      locks := map id | id in locks && locks[id] != t :: locks[id];
      txs := txs[t := txs[t].(pc := Committed, writes := map[], entries := [])];
      commits := commits + [t];
    }

    method Rollback(t: nat, why: Reason)
      requires t < |txs|
      modifies this`locks, this`txs
      ensures View() == Abort(old(View()), t, why)
    {
      locks := map id | id in locks && locks[id] != t :: locks[id];
      txs := txs[t := txs[t].(pc := Aborted(why), writes := map[], entries := [])];
    }

    method Goto(t: nat, pc: Pc)
      requires t < |txs|
      modifies this`txs
      ensures txs == old(txs)[t := old(txs)[t].(pc := pc)]
    {
      txs := txs[t := txs[t].(pc := pc)];
    }

    /** The two row locks, smaller id first. */
    method LockNext(t: nat)
      requires t < |txs| && (txs[t].pc.Begun? || txs[t].pc.FirstLocked?)
      modifies this
      ensures View() == Step(old(View()), t)
    {
      var tx := txs[t];
      var f := GetAccountByIDWithLock(t, if tx.pc.Begun? then First(tx.req) else Second(tx.req));
      match f
      case Missing => Rollback(t, NotFound);
      case MustWait =>
      case Row(a) =>
        if tx.pc.Begun? {
          txs := txs[t := tx.(pc := FirstLocked, first := a)];
        } else {
          txs := txs[t := tx.(pc := BothLocked, second := a)];
        }
    }

    /** The two balance updates, source first. */
    method UpdateNext(t: nat)
      requires t < |txs| && (txs[t].pc.BothLocked? || txs[t].pc.SourceUpdated?)
      modifies this
      ensures View() == Step(old(View()), t)
    {
      var tx := txs[t];
      var r := tx.req;
      var srcAcc, destAcc := SourceRead(tx), DestRead(tx);
      var u, next;
      if tx.pc.BothLocked? {
        if srcAcc.balance < r.amount {
          Rollback(t, Insufficient);
          return;
        }
        u := UpdateAccountBalance(t, r.from, srcAcc.balance - r.amount, srcAcc.version);
        next := SourceUpdated;
      } else {
        u := UpdateAccountBalance(t, r.to, destAcc.balance + r.amount, destAcc.version);
        next := DestUpdated;
      }
      match u
      case Blocked =>
      case NoRows => Rollback(t, VersionMismatch);
      case OneRow => Goto(t, next);
    }

    /** One statement of Transfer. */
    method Advance(t: nat)
      requires t < |txs|
      modifies this
      ensures View() == Step(old(View()), t)
    {
      var tx := txs[t];
      var r := tx.req;
      match tx.pc
      case Fresh =>
        if r.amount <= 0 || r.from == "" || r.to == "" || r.from == r.to {
          Rollback(t, Invalid);
        } else {
          Goto(t, Begun);
        }
      case Begun => LockNext(t);
      case FirstLocked => LockNext(t);
      case BothLocked => UpdateNext(t);
      case SourceUpdated => UpdateNext(t);
      case DestUpdated =>
        CreateLedgerEntry(t, Entry(r.from, r.amount, Debit, r.ref));
        Goto(t, Debited);
      case Debited =>
        CreateLedgerEntry(t, Entry(r.to, r.amount, Credit, r.ref));
        Goto(t, Credited);
      case Credited => CommitTx(t);
      case Committed =>
      case Aborted(_) =>
    }

    /**
     Transfer with nobody holding its rows: it commits exactly when the amount is
     positive, the accounts are named, different and there, and the source can pay;
     then the balances move, both versions go up by one, and a DEBIT and a CREDIT
     are booked.  Otherwise no table changes.
     */
    method Transfer(t: nat) returns (ok: bool)
      requires t < |txs| && txs[t].pc.Fresh? && Ready(View(), View().db, t, 0)
      modifies this
      ensures |txs| == |old(txs)| && ok == txs[t].pc.Committed? && !Live(txs[t])
      ensures var r := old(txs[t].req);
              ok <==> r.amount > 0 && r.from != "" && r.to != "" && r.from != r.to
                      && r.from in old(rows) && r.to in old(rows) && old(rows)[r.from].balance >= r.amount
      ensures ok ==>
                var r := old(txs[t].req);
                var source, target := old(rows)[r.from], old(rows)[r.to];
                && rows == old(rows)[r.from := Account(source.balance - r.amount, source.version + 1)]
                                    [r.to := Account(target.balance + r.amount, target.version + 1)]
                && ledger == old(ledger) + [Entry(r.from, r.amount, Debit, r.ref), Entry(r.to, r.amount, Credit, r.ref)]
      ensures !ok ==> rows == old(rows) && ledger == old(ledger)
      ensures View().db == MoveIfAccepted(old(View()).db, old(txs[t].req))
    {
      MoveSpelledOut(View().db, txs[t].req);
      hide *;
      ok := RunToEnd(t);
    }

    /** All statements of one transfer. */
    method RunToEnd(t: nat) returns (ok: bool)
      requires t < |txs| && txs[t].pc.Fresh? && Ready(View(), View().db, t, 0)
      modifies this
      ensures |txs| == |old(txs)| && ok == txs[t].pc.Committed? && !Live(txs[t])
      ensures ok <==> Accepts(old(View()).db, old(txs[t].req))
      ensures View().db == MoveIfAccepted(old(View()).db, old(txs[t].req))
    {
      hide Step, TxOk, LocksOk, Busy;
      ghost var db := View().db;
      Unhindered(t, db, 0);  // argument checks, BEGIN
      Unhindered(t, db, 1);  // lock the smaller id
      Unhindered(t, db, 2);  // lock the larger id
      Unhindered(t, db, 3);  // check funds, update the source
      Unhindered(t, db, 4);  // update the destination
      Unhindered(t, db, 5);  // DEBIT entry
      Unhindered(t, db, 6);  // CREDIT entry
      Unhindered(t, db, 7);  // COMMIT
      assert Ready(View(), db, t, 8);
      ok := txs[t].pc.Committed?;
    }

    /** Advance, when nobody else holds the rows of `t`. */
    method Unhindered(t: nat, ghost db: Db, ghost n: nat)
      requires t < |txs| && Ready(View(), db, t, n)
      modifies this
      ensures View() == Step(old(View()), t)
      ensures |txs| == old(|txs|) && txs[t].req == old(txs[t].req) && Ready(View(), db, t, n + 1)
    {
      ReadyStep(View(), db, t, n);
      Advance(t);
    }
  }

  /** A move in the request's own terms. */
  lemma MoveSpelledOut(db: Db, r: Request)
    ensures Accepts(db, r) <==>
            r.amount > 0 && r.from != "" && r.to != "" && r.from != r.to
            && r.from in db.rows && r.to in db.rows && db.rows[r.from].balance >= r.amount
    ensures !Accepts(db, r) ==> MoveIfAccepted(db, r) == db
    ensures Accepts(db, r) ==>
              var source, target := db.rows[r.from], db.rows[r.to];
              MoveIfAccepted(db, r) ==
              Db(db.rows[r.from := Account(source.balance - r.amount, source.version + 1)]
                        [r.to := Account(target.balance + r.amount, target.version + 1)],
                 db.ledger + [Entry(r.from, r.amount, Debit, r.ref), Entry(r.to, r.amount, Credit, r.ref)])
  {
  }

  /** After `n` unhindered statements on tables `db`: still going, or ended as it must. */
  ghost predicate Ready(s: State, db: Db, t: nat, n: nat) {
    && t < |s.txs|
    && LocksOk(s.txs, s.locks)
    && if Live(s.txs[t]) then
         && Rank(s.txs[t].pc) == n && s.db == db && TxOk(s.db, s.txs[t])
         && !Busy(s, t, s.txs[t].req.from) && !Busy(s, t, s.txs[t].req.to)
       else
         && (s.txs[t].pc.Committed? <==> Accepts(db, s.txs[t].req))
         && s.db == MoveIfAccepted(db, s.txs[t].req)
  }

  lemma ReadyStep(s: State, db: Db, t: nat, n: nat)
    requires Ready(s, db, t, n)
    ensures Ready(Step(s, t), db, t, n + 1)
    ensures |Step(s, t).txs| == |s.txs| && Step(s, t).txs[t].req == s.txs[t].req
  {
    var tx := s.txs[t];
    match tx.pc
    case Fresh =>
      EndKeepsLocks(s.txs, s.locks, t, Ended(tx, Aborted(Invalid)));
    case Begun => ReadyLock(s, db, t, n);
    case FirstLocked => ReadyLock(s, db, t, n);
    case BothLocked => ReadyWork(s, db, t, n);
    case SourceUpdated => ReadyWork(s, db, t, n);
    case DestUpdated => ReadyWork(s, db, t, n);
    case Debited => ReadyWork(s, db, t, n);
    case Credited =>
      CommitIsMove(s, t);
      EndKeepsLocks(s.txs, s.locks, t, Ended(tx, Committed));
    case Committed =>
    case Aborted(_) =>
  }

  lemma ReadyLock(s: State, db: Db, t: nat, n: nat)
    requires Ready(s, db, t, n) && (s.txs[t].pc.Begun? || s.txs[t].pc.FirstLocked?)
    ensures Ready(Step(s, t), db, t, n + 1)
    ensures |Step(s, t).txs| == |s.txs| && Step(s, t).txs[t].req == s.txs[t].req
  {
    var tx := s.txs[t];
    var id := if tx.pc.Begun? then First(tx.req) else Second(tx.req);
    FirstBeforeSecond(tx.req);
    assert id in {tx.req.from, tx.req.to};
    if id !in s.db.rows {
      EndKeepsLocks(s.txs, s.locks, t, Ended(tx, Aborted(NotFound)));
    } else {
      GrantKeepsLocks(s.txs, s.locks, t, Step(s, t).txs[t], id);
    }
  }

  lemma ReadyWork(s: State, db: Db, t: nat, n: nat)
    requires Ready(s, db, t, n) && 3 <= Rank(s.txs[t].pc) <= 6
    ensures Ready(Step(s, t), db, t, n + 1)
    ensures |Step(s, t).txs| == |s.txs| && Step(s, t).txs[t].req == s.txs[t].req
  {
    var tx := s.txs[t];
    WorkGoesThrough(s, t);
    if Funded(tx) {
      WorkIsPartOfMove(s.db, tx);
      WorkedKeepsLocks(s.txs, s.locks, t);
    } else {
      ReadIsCurrent(s.db, tx);
      EndKeepsLocks(s.txs, s.locks, t, Ended(tx, Aborted(Insufficient)));
    }
  }
}
