/**
 Accounts, the double-entry ledger, and what one money transfer means.  Amounts
 are integers in units of 1/10000, the scale of the NUMERIC(18, 4) columns.
 */
module Accounts {

  type Id = string

  datatype Account = Account(balance: int, version: int)

  datatype Kind = Debit | Credit

  datatype Entry = Entry(account: Id, amount: int, kind: Kind, ref: string)

  datatype Request = Request(ref: string, from: Id, to: Id, amount: int)

  /** The committed tables: accounts and balance_ledgers. */
  datatype Db = Db(rows: map<Id, Account>, ledger: seq<Entry>)

  // ---------------------------------------------------------------------------
  // The reference: transfers as indivisible moves, one at a time
  // ---------------------------------------------------------------------------

  predicate Sane(r: Request) {
    r.amount > 0 && r.from != "" && r.to != "" && r.from != r.to
  }

  predicate Accepts(db: Db, r: Request) {
    && Sane(r)
    && r.from in db.rows && r.to in db.rows
    && db.rows[r.from].balance >= r.amount
  }

  function DebitOf(r: Request): Entry {
    Entry(r.from, r.amount, Debit, r.ref)
  }

  function CreditOf(r: Request): Entry {
    Entry(r.to, r.amount, Credit, r.ref)
  }

  function Touch(a: Account, delta: int): Account {
    Account(a.balance + delta, a.version + 1)
  }

  /** The meaning of one accepted transfer. */
  function Move(db: Db, r: Request): Db
    requires Accepts(db, r)
  {
    Db(db.rows[r.from := Touch(db.rows[r.from], -r.amount)][r.to := Touch(db.rows[r.to], r.amount)],
       db.ledger + [DebitOf(r), CreditOf(r)])
  }

  function MoveIfAccepted(db: Db, r: Request): Db {
    if Accepts(db, r) then Move(db, r) else db
  }

  predicate Indices(order: seq<nat>, n: nat) {
    forall i :: 0 <= i < |order| ==> order[i] < n
  }

  /** The requests named by `order`, run one at a time in that order. */
  function Serial(db: Db, reqs: seq<Request>, order: seq<nat>): Db
    requires Indices(order, |reqs|)
  {
    if order == [] then db
    else MoveIfAccepted(Serial(db, reqs, order[..|order| - 1]), reqs[order[|order| - 1]])
  }

  /** Every request in `order` is accepted when its turn comes. */
  predicate AllAccepted(db: Db, reqs: seq<Request>, order: seq<nat>)
    requires Indices(order, |reqs|)
  {
    order == [] ||
    (AllAccepted(db, reqs, order[..|order| - 1]) &&
     Accepts(Serial(db, reqs, order[..|order| - 1]), reqs[order[|order| - 1]]))
  }
}
