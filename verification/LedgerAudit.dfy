/**
 What the ledger says about the balances: agreement, conservation, and the
 integrity audit of the settlement service.
 */
module LedgerAudit {
  import opened Accounts
  import opened Transfers

  /** An entry as GetLedgerSum counts it for one account. */
  function Signed(e: Entry, id: Id): int {
    if e.account != id then 0 else if e.kind.Credit? then e.amount else -e.amount
  }

  /** GetLedgerSum: credits minus debits of one account. */
  function LedgerSum(ledger: seq<Entry>, id: Id): int {
    if ledger == [] then 0
    else LedgerSum(ledger[..|ledger| - 1], id) + Signed(ledger[|ledger| - 1], id)
  }

  /** Credits minus debits booked under one reference, over all accounts. */
  function RefNet(ledger: seq<Entry>, ref: string): int {
    if ledger == [] then 0
    else
      var e := ledger[|ledger| - 1];
      RefNet(ledger[..|ledger| - 1], ref) +
      (if e.ref != ref then 0 else if e.kind.Credit? then e.amount else -e.amount)
  }

  /** How many entries carry one reference. */
  function RefCount(ledger: seq<Entry>, ref: string): nat {
    if ledger == [] then 0
    else RefCount(ledger[..|ledger| - 1], ref) + (if ledger[|ledger| - 1].ref == ref then 1 else 0)
  }

  lemma BookedPair(ledger: seq<Entry>, r: Request, id: Id, ref: string)
    ensures var l := ledger + [DebitOf(r), CreditOf(r)];
            && LedgerSum(l, id) == LedgerSum(ledger, id) + Signed(DebitOf(r), id) + Signed(CreditOf(r), id)
            && RefNet(l, ref) == RefNet(ledger, ref)
            && RefCount(l, ref) == RefCount(ledger, ref) + (if r.ref == ref then 2 else 0)
  {
    var l := ledger + [DebitOf(r), CreditOf(r)];
    var m := ledger + [DebitOf(r)];
    assert l[..|l| - 1] == m && m[..|m| - 1] == ledger;
  }

  ghost predicate Agrees(db: Db) {
    forall id :: id in db.rows ==> db.rows[id].balance == LedgerSum(db.ledger, id)
  }

  ghost predicate Solvent(db: Db) {
    forall id :: id in db.rows ==> db.rows[id].balance >= 0
  }

  /** `order` lists every account row exactly once, in whatever order a query returns them. */
  ghost predicate Lists(order: seq<Id>, rows: map<Id, Account>) {
    && (forall i :: 0 <= i < |order| ==> order[i] in rows)
    && (forall id :: id in rows ==> id in order)
    && (forall i, j :: 0 <= i < j < |order| ==> order[i] != order[j])
  }

  function Total(rows: map<Id, Account>, order: seq<Id>): int {
    if order == [] then 0
    else (if order[0] in rows then rows[order[0]].balance else 0) + Total(rows, order[1..])
  }

  lemma {:induction false} TotalUpdate(rows: map<Id, Account>, order: seq<Id>, id: Id, a: Account)
    requires id in rows
    requires forall i, j :: 0 <= i < j < |order| ==> order[i] != order[j]
    ensures Total(rows[id := a], order) ==
            Total(rows, order) + if id in order then a.balance - rows[id].balance else 0
  {
    if order != [] {
      TotalUpdate(rows, order[1..], id, a);
      assert id in order <==> id == order[0] || id in order[1..];
    }
  }

  /** How many of the requests in `order` touch account `id`. */
  function Touches(reqs: seq<Request>, order: seq<nat>, id: Id): nat
    requires Indices(order, |reqs|)
  {
    if order == [] then 0
    else
      var r := reqs[order[|order| - 1]];
      Touches(reqs, order[..|order| - 1], id) + (if id == r.from || id == r.to then 1 else 0)
  }

  /** What money can do between two states of the tables. */
  ghost predicate Conserved(db0: Db, db: Db) {
    && db.rows.Keys == db0.rows.Keys
    && (forall order :: Lists(order, db0.rows) ==> Total(db.rows, order) == Total(db0.rows, order))
    && (forall ref :: RefNet(db.ledger, ref) == RefNet(db0.ledger, ref))
    && (forall id :: id in db0.rows ==>
          db.rows[id].balance - LedgerSum(db.ledger, id) == db0.rows[id].balance - LedgerSum(db0.ledger, id))
  }

  lemma MoveConserves(db: Db, r: Request)
    requires Accepts(db, r)
    ensures Conserved(db, Move(db, r)) && (Solvent(db) ==> Solvent(Move(db, r)))
  {
    var db' := Move(db, r);
    var mid := db.rows[r.from := Touch(db.rows[r.from], -r.amount)];
    forall order | Lists(order, db.rows) ensures Total(db'.rows, order) == Total(db.rows, order) {
      TotalUpdate(db.rows, order, r.from, mid[r.from]);
      TotalUpdate(mid, order, r.to, db'.rows[r.to]);
    }
    forall id
      ensures LedgerSum(db'.ledger, id) == LedgerSum(db.ledger, id) + Signed(DebitOf(r), id) + Signed(CreditOf(r), id)
    {
      BookedPair(db.ledger, r, id, r.ref);
    }
    forall ref ensures RefNet(db'.ledger, ref) == RefNet(db.ledger, ref) {
      BookedPair(db.ledger, r, r.from, ref);
    }
  }

  lemma ConservedCompose(a: Db, b: Db, c: Db)
    requires Conserved(a, b) && Conserved(b, c)
    ensures Conserved(a, c)
  {
    assert forall order :: Lists(order, a.rows) ==> Lists(order, b.rows);
  }

  lemma {:induction false} SerialConserves(db: Db, reqs: seq<Request>, order: seq<nat>)
    requires Indices(order, |reqs|) && AllAccepted(db, reqs, order)
    ensures Conserved(db, Serial(db, reqs, order))
    ensures Solvent(db) ==> Solvent(Serial(db, reqs, order))
    ensures forall id :: id in db.rows ==>
              Serial(db, reqs, order).rows[id].version == db.rows[id].version + Touches(reqs, order, id)
  {
    if order != [] {
      var before := order[..|order| - 1];
      SerialConserves(db, reqs, before);
      MoveConserves(Serial(db, reqs, before), reqs[order[|order| - 1]]);
      ConservedCompose(db, Serial(db, reqs, before), Serial(db, reqs, order));
    }
  }

  /**
   Conservation.  Whatever transfers interleave, the accounts, their total and
   the net of every reference stay as they were, no balance becomes negative,
   each balance agrees with its ledger entries, and each version counts the
   committed transfers that touched the account.
   */
  lemma RunsConserveMoney(db0: Db, reqs: seq<Request>, acts: seq<Action>)
    requires Agrees(db0) && Solvent(db0)
    ensures var s := Run(Init(db0, reqs), acts);
            && Conserved(db0, s.db) && Agrees(s.db) && Solvent(s.db)
            && s.db.rows.Keys == db0.rows.Keys
            && (forall id :: id in s.db.rows ==>
                  s.db.rows[id].balance >= 0 && s.db.rows[id].balance == LedgerSum(s.db.ledger, id))
            && (forall order :: Lists(order, db0.rows) ==> Total(s.db.rows, order) == Total(db0.rows, order))
            && (forall ref :: RefNet(s.db.ledger, ref) == RefNet(db0.ledger, ref))
            && Indices(s.commits, |reqs|)
            && forall id :: id in db0.rows ==>
                 s.db.rows[id].version == db0.rows[id].version + Touches(reqs, s.commits, id)
  {
    Serializability(db0, reqs, acts);
    var s := Run(Init(db0, reqs), acts);
    SerialConserves(db0, reqs, s.commits);
    forall id | id in s.db.rows ensures s.db.rows[id].balance == LedgerSum(s.db.ledger, id) {
      assert id in db0.rows;
    }
  }

  // ---------------------------------------------------------------------------
  // Seeding
  // ---------------------------------------------------------------------------

  /** seedAccount: the row is inserted only if absent, the initial CREDIT always. */
  function SeedAccount(db: Db, id: Id, balance: int): Db {
    Db(if id in db.rows then db.rows else db.rows[id := Account(balance, 1)],
       db.ledger + [Entry(id, balance, Credit, "system_init")])
  }

  /** Seeding keeps balances and ledger in agreement exactly when the account is new (or the amount is nil). */
  lemma SeedAgreesOnlyOnce(db: Db, id: Id, balance: int)
    requires Agrees(db) && LedgerSum(db.ledger, id) == (if id in db.rows then db.rows[id].balance else 0)
    ensures SeedAccount(db, id, balance).ledger == db.ledger + [Entry(id, balance, Credit, "system_init")]
    ensures SeedAccount(db, id, balance).rows == if id in db.rows then db.rows else db.rows[id := Account(balance, 1)]
    ensures Agrees(SeedAccount(db, id, balance)) <==> id !in db.rows || balance == 0
  {
    var db' := SeedAccount(db, id, balance);
    assert db'.ledger[..|db'.ledger| - 1] == db.ledger;
    forall x ensures LedgerSum(db'.ledger, x) == LedgerSum(db.ledger, x) + (if x == id then balance else 0) {
    }
    assert id in db'.rows;
  }

  // ---------------------------------------------------------------------------
  // The ledger integrity audit
  // ---------------------------------------------------------------------------

  datatype Discrepancy = Discrepancy(account: Id, balance: int, ledgerSum: int, difference: int)

  function Abs(x: int): nat {
    if x < 0 then -x else x
  }

  /**
   The audit reports a float64 difference of more than 0.0001, one unit.  A
   difference of exactly one unit is compared with its own rounding errors:
   `rounded` are the accounts where those errors lift it over the limit.
   */
  predicate OffBalance(db: Db, rounded: set<Id>, id: Id) {
    && id in db.rows
    && var difference := Abs(db.rows[id].balance - LedgerSum(db.ledger, id));
       difference > 1 || (difference == 1 && id in rounded)
  }

  /** The figures reported for one account. */
  function Report(db: Db, id: Id): Discrepancy
    requires id in db.rows
  {
    var balance, ledgerSum := db.rows[id].balance, LedgerSum(db.ledger, id);
    Discrepancy(id, balance, ledgerSum, balance - ledgerSum)
  }

  predicate Precedes(ids: seq<Id>, x: Id, y: Id) {
    exists p, q :: 0 <= p < q < |ids| && ids[p] == x && ids[q] == y
  }

  /** `found` lists exactly the accounts of `ids` that are off, in their order, with their figures. */
  ghost predicate Reports(db: Db, rounded: set<Id>, ids: seq<Id>, found: seq<Discrepancy>) {
    && (forall d :: d in found ==> d.account in ids && OffBalance(db, rounded, d.account) && d == Report(db, d.account))
    && (forall id :: id in ids && OffBalance(db, rounded, id) ==> Report(db, id) in found)
    && (forall i, j :: 0 <= i < j < |found| ==>
          found[i].account != found[j].account && Precedes(ids, found[i].account, found[j].account))
  }

  lemma StillPrecedes(ids: seq<Id>, id: Id, x: Id, y: Id)
    requires Precedes(ids, x, y) || (x in ids && y == id)
    ensures Precedes(ids + [id], x, y)
  {
    var more := ids + [id];
    if Precedes(ids, x, y) {
      var p, q :| 0 <= p < q < |ids| && ids[p] == x && ids[q] == y;
      assert more[p] == x && more[q] == y;
    } else {
      var p :| 0 <= p < |ids| && ids[p] == x;
      assert more[p] == x && more[|ids|] == y;
    }
  }

  lemma ReportOneMore(db: Db, rounded: set<Id>, ids: seq<Id>, found: seq<Discrepancy>, id: Id)
    requires Reports(db, rounded, ids, found) && id in db.rows && id !in ids
    ensures Reports(db, rounded, ids + [id], if OffBalance(db, rounded, id) then found + [Report(db, id)] else found)
  {
    var found' := if OffBalance(db, rounded, id) then found + [Report(db, id)] else found;
    forall i, j | 0 <= i < j < |found'| ensures Precedes(ids + [id], found'[i].account, found'[j].account) {
      assert found'[i] == found[i] && found[i] in found;
      StillPrecedes(ids, id, found'[i].account, found'[j].account);
    }
    hide Precedes, OffBalance;
  }

  /**
   auditLedgerIntegrity, over the accounts in the order the query returns them:
   it reports exactly the accounts that are off, in that order, each once and with
   its figures, hence nothing when balances and ledger agree.
   */
  method AuditLedgerIntegrity(db: Db, rounded: set<Id>, order: seq<Id>) returns (found: seq<Discrepancy>)
    requires Lists(order, db.rows)
    ensures forall d :: d in found ==>
              && d.account in db.rows && d.balance == db.rows[d.account].balance
              && d.ledgerSum == LedgerSum(db.ledger, d.account) && d.difference == d.balance - d.ledgerSum
    ensures forall id :: id in db.rows ==>
              var difference := Abs(db.rows[id].balance - LedgerSum(db.ledger, id));
              ((exists d :: d in found && d.account == id) <==> difference > 1 || (difference == 1 && id in rounded))
    ensures forall i, j :: 0 <= i < j < |found| ==>
              found[i].account != found[j].account && Precedes(order, found[i].account, found[j].account)
    ensures Agrees(db) ==> found == []
  {
    found := [];
    hide Reports;
    assert Reports(db, rounded, order[..0], found) by { NothingReported(db, rounded); }
    for n := 0 to |order|
      invariant Reports(db, rounded, order[..n], found)
    {
      var id := order[n];
      ReportOneMore(db, rounded, order[..n], found, id);
      assert order[..n + 1] == order[..n] + [id];
      var balance, ledgerSum := db.rows[id].balance, LedgerSum(db.ledger, id);
      var diff := Abs(balance - ledgerSum);
      if diff > 1 || (diff == 1 && id in rounded) {
        found := found + [Discrepancy(id, balance, ledgerSum, balance - ledgerSum)];
      }
    }
    assert order[..|order|] == order;
    ReportsTheFigures(db, rounded, order, found);
    if Agrees(db) {
      AgreementReportsNothing(db, rounded, order, found);
    }
  }

  lemma ReportsTheFigures(db: Db, rounded: set<Id>, order: seq<Id>, found: seq<Discrepancy>)
    requires Lists(order, db.rows) && Reports(db, rounded, order, found)
    ensures forall d :: d in found ==>
              && d.account in db.rows && d.balance == db.rows[d.account].balance
              && d.ledgerSum == LedgerSum(db.ledger, d.account) && d.difference == d.balance - d.ledgerSum
    ensures forall id :: id in db.rows ==>
              var difference := Abs(db.rows[id].balance - LedgerSum(db.ledger, id));
              ((exists d :: d in found && d.account == id) <==> difference > 1 || (difference == 1 && id in rounded))
    ensures forall i, j :: 0 <= i < j < |found| ==>
              found[i].account != found[j].account && Precedes(order, found[i].account, found[j].account)
  {
    hide Precedes, LedgerSum;
    forall id | id in db.rows && OffBalance(db, rounded, id) ensures exists d :: d in found && d.account == id {
      assert Report(db, id) in found && Report(db, id).account == id;
    }
  }

  lemma NothingReported(db: Db, rounded: set<Id>)
    ensures Reports(db, rounded, [], [])
  {
  }

  lemma AgreementReportsNothing(db: Db, rounded: set<Id>, ids: seq<Id>, found: seq<Discrepancy>)
    requires Reports(db, rounded, ids, found) && Agrees(db)
    ensures found == []
  {
    assert found != [] ==> found[0] in found && OffBalance(db, rounded, found[0].account);
  }

  /**
   What the audit is sure to report, however differences round: exactly those of
   two units and more.  What it is sure to pass: exactly agreement.
   */
  lemma AuditIsSureFromTwoUnits(db: Db, id: Id)
    requires id in db.rows
    ensures (forall rounded :: OffBalance(db, rounded, id)) <==> Abs(db.rows[id].balance - LedgerSum(db.ledger, id)) >= 2
    ensures (forall rounded :: !OffBalance(db, rounded, id)) <==> db.rows[id].balance == LedgerSum(db.ledger, id)
  {
    assert OffBalance(db, {}, id) <==> Abs(db.rows[id].balance - LedgerSum(db.ledger, id)) >= 2;
    assert OffBalance(db, {id}, id) <==> Abs(db.rows[id].balance - LedgerSum(db.ledger, id)) >= 1;
  }
}
