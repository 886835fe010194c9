# qPayFlow: a verified model

qPayFlow is a payment platform whose state lives in Postgres tables, Redis keys
and Kafka topics and is changed by small protocols that interleave, fail and
crash.  This project models those protocols and proves what they keep.

## How it is organised

* **Money.** `Lex` (the order of account ids), `Accounts` (tables, one transfer as
  one move), `Transfers` (any number of transfers interleaved statement by
  statement, with row locks, uncommitted writes and rollbacks anywhere),
  `TransferLiveness` (no deadlock, termination), `LedgerAudit` (conservation, the
  settlement service's ledger audit), `TransferStore` (the repository and
  `Transfer` changing a store in place), `RedisLock` (transfers wrapped in
  expiring Redis locks).
* **Payments.** `Payments` is one state machine of everything that happens to a
  payment: `CreatePayment` calls, relay workers, fraud results, saga attempts, the
  account service, and the faults of each.  `PaymentRows`, `PaymentSaga`,
  `PaymentCache`, `RedisTier` and `PaymentRelay` prove what every run of it keeps.
  `PaymentRuns` has runs that end badly.  `Composition` runs the machine together
  with the statement-level transfers of `Transfers`.  `PaymentService` and `OutboxRelay` are the service, the
  idempotency manager and the relay as classes that change their state in place;
  `Cascade` has the event flow and the saga's handler.
* **Clocks.** `Breaker` (circuit breaker), `Leader` (lease and elector), `Backoff`
  (retry arithmetic on 64 bits).
* **Windows.** `Window` (a pruned, expiring sorted set against the full history),
  used by `RateLimiter` and `Velocity`.
* `Faults` (how a remote command ends) and `Arithmetic` are shared.

A function such as `Transfers.Step` or `Payments.NextOfCall` says what one
statement of the program does; a class method's contract ties the new state to
such a function or states the result outright; the theorems are lemmas over all
runs.  A call through the network can fail with or without having taken effect
(`applied`, `Faults.Net`, `ReplyLost`), and any participant can crash before any
statement.  How remote commands end is an input of the class methods, so that their
contracts are exact under every fault.

## Assumptions

* Amounts are whole units of 1/10000, as the columns are NUMERIC(18,4)
  (`scripts/migrations/000001_init_schema.up.sql:6,16,27`); the source computes in float64.
* `payments.idempotency_key` has a unique index
  (`scripts/migrations/000001_init_schema.up.sql:24`); a second insert of a key waits for
  the first transaction and then fails if that committed.
* `SELECT ... FOR UPDATE` returns the latest committed row once the lock is granted.
* Fraud results are keyed by payment id and hashed onto partitions
  (`cmd/fraud-service/main.go:102`, `pkg/kafka/kafka.go:26`), so the results of one
  payment are handled one after the other.
* JSON encoding and SHA-256 are injective; drawn ids and tokens are new.
* Only the saga books transfers under references that begin with `pay_`.
* The books start out agreeing with each other, as after seeding every account once.
* Every Lua script and Redis transaction is atomic.

## Where the code and its description differ

* `seedAccount` is called safe to re-run (`scripts/generator/main.go:149`); it books a
  second CREDIT for an existing account (`LedgerAudit.SeedAgreesOnlyOnce`).
* A healthy Redis alone does not keep `CreatePayment` off the unique index: between
  SET NX and GET of `Manager.Start` the record can be released, GET then fails, and
  the call goes on without a reservation (`RedisTier.HealthyRedisIsNotEnough`).
* FAILED can hide a transfer that was made (`PaymentRuns.FailedThoughPaid`), and the cache
  can fall back from FAILED to PENDING (`PaymentRuns.CacheFallsBack`; exactly when is
  `PaymentCache.PendingComesBack`).
* A lease below one second is deleted by its first renewal
  (`Leader.SubSecondRenewalDeletes`), and on shutdown two electors can carry the leader
  flag, though not two live leader contexts (`Leader.TwoLeaderFlags`).
* Requests with equal timestamps share one slot of the limiter (`RateLimiter.SameInstantBurst`).
* Steady attempts above ten a minute lock an account out of approval for good
  (`Velocity.SteadyAttemptsStarve`).
* The backoff stops waiting once its product overflows (`Backoff.OverflowSkipsTheWait`,
  `Backoff.LateRetriesDoNotWait`).
* Half-open admits any number of calls (`Breaker.HalfOpenAdmitsAll`).
* Limiter and velocity check let everything pass while Redis fails; their bounds count that
  apart (`RateLimiter.AtMostLimitAndFailuresPerWindow`, `Velocity.AtMostTenAndFailuresPerMinute`).

## Model

| member | source | states |
|---|---|---|
| Transfers.Serializability | cmd/account-service/internal/account/service.go:39-144 | Any interleaving of any number of transfers, rolled back anywhere, leaves tables and ledger equal to the committed ones done one at a time in commit order, each acceptable in its turn; no version mismatch ever occurs |
| Transfers.FundsCheckIsCurrent | cmd/account-service/internal/account/service.go:88-91 | The funds check, made on rows read earlier, decides as the committed balance of that very moment would |
| Transfers.ReadIsCurrent | cmd/account-service/internal/account/service.go:78-86 | After both locks, source and destination as read are the committed rows, mapped back from lock order, and both are locked |
| Transfers.WorkGoesThrough | cmd/account-service/internal/account/repository.go:74-100 | Under the two row locks neither update ever waits or finds a wrong version: the version check is redundant |
| Transfers.WorkIsPartOfMove | cmd/account-service/internal/account/service.go:93-130 | Updates and ledger inserts together buffer exactly the part of the whole move that is due at each statement |
| Transfers.CommitIsMove | cmd/account-service/internal/account/service.go:132-134 | COMMIT turns what was buffered, row versions included, into the whole transfer on the current tables, which accept it |
| Transfers.LocksExclude | cmd/account-service/internal/account/repository.go:49-72 | While a transaction holds its two rows no other one holds either |
| TransferLiveness.WaitForIsAcyclic | cmd/account-service/internal/account/service.go:56-76 | No reachable state has a circle of transactions each waiting for the next one's row |
| TransferLiveness.StuckMeansWaiting | cmd/account-service/internal/account/service.go:62-76 | A live transaction cannot step exactly when it waits for a row that another one holds |
| TransferLiveness.SomeoneCanStep | cmd/account-service/internal/account/service.go:56-76 | As long as a transfer is unfinished some transfer can step |
| TransferLiveness.RunsAreShort | cmd/account-service/internal/account/service.go:39-144 | No schedule of N transfers has more than 8 N effective statements and rollbacks |
| TransferLiveness.MaximalRunsFinish | cmd/account-service/internal/account/service.go:39-144 | A schedule that no statement can extend has finished every transfer |
| TransferLiveness.CanFinish | cmd/account-service/internal/account/service.go:39-144 | From every reachable state all transfers can be finished without a fault |
| Lex.FirstDifferenceDecides | cmd/account-service/internal/account/service.go:57-60 | One id is less than another exactly if it is smaller where they first differ, or a proper prefix |
| Lex.Total | cmd/account-service/internal/account/service.go:57-60 | Of two different ids one is less than the other |
| Lex.Transitive | cmd/account-service/internal/account/service.go:57-60 | The id order is transitive |
| Lex.Greatest | cmd/account-service/internal/account/service.go:57-60 | Every non-empty finite set of ids has a greatest one |
| TransferStore.Store.Transfer | cmd/account-service/internal/account/service.go:39-144 | With nobody on its rows a transfer commits exactly when the amount is positive, the accounts are named, different and there, and the source can pay; balances, versions and the two entries are given in the request's own fields; otherwise no table changes |
| TransferStore.Store.Advance | cmd/account-service/internal/account/service.go:62-134 | Each statement, in place, is one step of the interleaved model |
| TransferStore.Store.GetAccountByIDWithLock | cmd/account-service/internal/account/repository.go:49-72 | Missing row, wait, or the committed row with its lock taken |
| TransferStore.Store.UpdateAccountBalance | cmd/account-service/internal/account/repository.go:74-100 | One row is updated exactly when the visible version is the expected one; the version goes up by one; otherwise nothing changes |
| TransferStore.Store.CommitTx | cmd/account-service/internal/account/service.go:132-134 | Buffered writes and entries reach the tables and the locks go, at once |
| LedgerAudit.RunsConserveMoney | cmd/account-service/internal/account/service.go:88-134 | In every reachable state: total constant, each balance its credits minus debits, none negative, debits equal credits per reference, each version its start plus the committed transfers touching the account |
| LedgerAudit.SerialConserves | cmd/account-service/internal/account/service.go:93-130 | The same conservation for accepted transfers in any order |
| LedgerAudit.AuditLedgerIntegrity | cmd/settlement-service/internal/reconciliation/reconciliation.go:88-125 | Reported, in row order and once each, are exactly the accounts that are off, with their balance, ledger sum and the difference of the two; books that agree give an empty report. At a difference of exactly 0.0001 rounding, an input, decides |
| LedgerAudit.AuditIsSureFromTwoUnits | cmd/settlement-service/internal/reconciliation/reconciliation.go:113-114 | However the comparison rounds, a difference is reported if and only if it is at least two units, and passed if and only if it is zero |
| LedgerAudit.SeedAgreesOnlyOnce | scripts/generator/main.go:148-194 | Seeding always books a CREDIT and adds the row only if absent, so it keeps the books agreeing if and only if the account is new or the amount is zero |
| RedisLock.RedisLocksChangeNothing | cmd/account-service/internal/account/service.go:146-170 | Wrapping transfers in Redis locks that expire at any moment leaves serializability, conservation and audit agreement as they are |
| RedisLock.Projection | cmd/account-service/internal/account/service.go:146-170 | A wrapped run changes the database as the unwrapped run of the statements it lets through |
| RedisLock.NoExpiryMeansExclusion | pkg/redis/redis.go:52-87 | If no lock expires, two transfers inside their locks share no account |
| RedisLock.ReleaseOnlyOwn | pkg/redis/redis.go:19-26 | Releasing changes something exactly when the token still owns the key, never another key, and undoes the acquisition |
| RedisLock.LocksAreGivenBack | cmd/account-service/internal/account/service.go:157-169 | In every run no key stores the token of a call that has not begun or has gone; once all calls have gone no lock is left |
| RedisLock.LocksAreTaken | cmd/account-service/internal/account/service.go:152-167 | The smaller id is locked first; a call that finds either key taken gives up and gives back what it took |
| RedisLock.LocksAreReleased | pkg/redis/redis.go:76-87 | After its transfer a call releases both keys, and no key of another call |
| PaymentRows.OnePaymentPerKey | cmd/payment-service/internal/payment/service.go:84-180 | Under every interleaving, Redis fault, expiry, release and crash: one payment per key, exactly one PaymentCreated row with its fields per payment, and all returns for a key carry the same payment |
| PaymentRows.CommitKeepsTables | cmd/payment-service/internal/payment/service.go:142-175 | COMMIT of a free key and id adds one payment with its one outbox row and keeps index, table and outbox in step |
| RedisTier.RedisTierSuffices | pkg/idempotency/idempotency.go:50-125 | Key by key: no insert ever hits the unique index, whatever happens to other keys, and failed commits, cache writes and releases, retries and crashes included; excepted are only keys on which, while unused, a call went on without its own reservation (failed SET NX or GET, or a GET that found the record gone) or the reservation of a call still at work expired |
| RedisTier.FlagsAreDeserved | pkg/idempotency/idempotency.go:66-80 | What the exceptions of the previous row are, step by step: when a call goes on without its own reservation on an unused key, and when an insert hits the index |
| RedisTier.ExpiryIsFlagged | pkg/idempotency/idempotency.go:66 | And when an expiry is one |
| RedisTier.CollisionAwaits | cmd/payment-service/internal/payment/service.go:94-145 | From every state with the key unused, once a call is past the Redis tier and another one gets past it too, a continuation that raises no other flag makes an insert hit the unique index |
| RedisTier.FailedSetNXCollides | pkg/idempotency/idempotency.go:66-69 | A run in which one failed SET NX makes an insert hit the unique index |
| RedisTier.FailedGetCollides | pkg/idempotency/idempotency.go:77-80 | The same for one failed GET |
| RedisTier.ExpiredReservationCollides | pkg/idempotency/idempotency.go:66 | The same for one reservation that expires under a call at work |
| RedisTier.HealthyRedisIsNotEnough | pkg/idempotency/idempotency.go:66-80 | Three calls, no Redis fault and no expiry, that do hit the unique index |
| PaymentSaga.OncePerPaymentPlusUnrecorded | cmd/payment-service/internal/payment/service.go:187-264 | However often results are delivered, the pairs booked under a payment's id number at most one plus the attempts that moved money but recorded no status |
| PaymentSaga.SuccessMeansMoved | cmd/payment-service/internal/payment/service.go:213-217 | Every SUCCESS payment has a DEBIT of its amount on its source and a CREDIT of it on its target under its id, so the three-way count is zero |
| PaymentSaga.ThreeWayAuditFinds | cmd/settlement-service/internal/reconciliation/reconciliation.go:127-145 | The three-way audit finds exactly the SUCCESS payments with fewer than two ledger entries under their id |
| PaymentSaga.LostEntryIsFound | cmd/settlement-service/internal/reconciliation/reconciliation.go:127-145 | In every reachable state, losing one entry of a SUCCESS payment with a single pair is found, and it alone |
| PaymentSaga.FailedMeansUnmovedUnlessStrayed | cmd/payment-service/internal/payment/service.go:248-257 | A FAILED payment has ledger entries if and only if an attempt moved money and lost its reply or recorded no status |
| PaymentSaga.LostReplyFailsAPaidPayment | cmd/payment-service/internal/payment/service.go:232-257 | From any state with an acceptable request out, money moved under a FAILED payment is reachable |
| PaymentRuns.FailedThoughPaid | cmd/payment-service/internal/payment/service.go:232-257 | A run from the start that ends with a FAILED payment whose transfer is booked |
| PaymentSaga.RejectedMovesNothing | cmd/payment-service/internal/payment/service.go:201-210 | If every fraud result published for a payment is a rejection, nothing is ever booked under its id and it is never SUCCESS |
| PaymentSaga.AnnouncementsAgree | cmd/payment-service/internal/saga/consumer.go:45-63 | All result events of a payment carry one status, the stored one, never PENDING |
| PaymentSaga.FinalStatusStays | cmd/payment-service/internal/payment/service.go:196-199 | No continuation of a run changes SUCCESS or FAILED |
| PaymentCache.CompletedRecordsAgree | pkg/idempotency/idempotency.go:99-120 | A COMPLETED record holds the id and immutable fields of the row with its key and a status that row has held; so does every returned payment |
| PaymentCache.EveryRowWasPending | cmd/payment-service/internal/payment/service.go:130-140 | Every payment row there is was PENDING after some earlier part of the run |
| PaymentCache.PendingComesBack | cmd/payment-service/internal/payment/service.go:116-177 | For a settled payment whose record does not say PENDING: some continuation makes it say so if and only if a call is about to cache the payment as it was before |
| PaymentCache.QuietCacheIsRight | pkg/idempotency/idempotency.go:99-120 | Without such a call a COMPLETED record is the payment exactly as stored, for the rest of every run |
| PaymentRuns.CacheFallsBack | cmd/payment-service/internal/payment/service.go:172-177 | A run from the start in which the cached payment is FAILED, like its row, and then PENDING again |
| PaymentRelay.ProcessedMeansPublished | cmd/payment-service/internal/outbox/relay.go:55-86 | With any faults, crashes and concurrent workers a PROCESSED row was published with its own payload keyed by its source account, and only committed payments are published |
| PaymentRelay.WorkerHandlesRow | cmd/payment-service/internal/outbox/relay.go:65-80 | An undisturbed worker publishes the row under its source account, or its aggregate id without one, marks it exactly if that is reported to work, and goes on to the next row in any case |
| OutboxRelay.DrainsInCeilPasses | cmd/payment-service/internal/outbox/relay.go:55-86 | n pending rows are drained if and only if at least ceil(n/batch) failure-free passes were made |
| OutboxRelay.FirstRowsDrainInCeilPasses | cmd/payment-service/internal/payment/repository.go:121-144 | The same for the rows pending at first, however many younger rows arrive between the passes |
| OutboxRelay.DrainsOldestFirst | cmd/payment-service/internal/payment/repository.go:121-144 | Over all failure-free passes rows leave in the order of their creation times |
| OutboxRelay.RelayWorker.GetPendingOutboxEvents | cmd/payment-service/internal/payment/repository.go:121-144 | Distinct pending rows, oldest first, min(limit, pending) many, none left out that is older than one returned |
| OutboxRelay.RelayWorker.ProcessBatch | cmd/payment-service/internal/outbox/relay.go:55-86 | Under every pattern of faults: published are, in batch order, the rows whose publication took effect; PROCESSED become exactly the rows whose publication was reported to work and whose mark took effect |
| OutboxRelay.MarkedAreSent | cmd/payment-service/internal/outbox/relay.go:72-80 | Whatever fails, no row of a batch is marked without having been sent |
| OutboxRelay.CleanPass | cmd/payment-service/internal/outbox/relay.go:65-83 | A pass without failures sends and marks the whole batch |
| OutboxRelay.RelayWorker.RelayOne | cmd/payment-service/internal/outbox/relay.go:66-80 | Publish the payload under its source account, or its aggregate id without one, then mark; a reported failure to publish leaves the row pending, even if the message went out |
| OutboxRelay.SentMeans | cmd/payment-service/internal/outbox/relay.go:65-75 | What a batch sends, row by row and in its order |
| PaymentService.Service.CreatePayment | cmd/payment-service/internal/payment/service.go:63-181 | In place, under every combination of faults, tables, Redis and answer are where the protocol's steps lead |
| PaymentService.CreatePaymentOutcome | cmd/payment-service/internal/payment/service.go:63-181 | The answer under every combination of faults, in the request's own fields: refused without key or account, for equal accounts or no positive amount; by the Redis record if it can be read, then by the table; a new payment, in USD by default, exactly when all statements execute and COMMIT succeeds |
| PaymentService.CreatePaymentTables | cmd/payment-service/internal/payment/service.go:120-175 | The tables gain the payment, PENDING and with the request's fields, and its outbox row, exactly when the request is valid and unanswered, the key unused, all statements execute and COMMIT takes effect |
| PaymentService.CreatePaymentRecord | pkg/idempotency/idempotency.go:50-125 | What is left in Redis under every combination of faults: the reservation, the payment found or stored, or nothing |
| PaymentService.CreatePaymentKeepsTables | cmd/payment-service/internal/payment/service.go:120-175 | With a new id, index, payments and outbox stay in step whatever fails |
| PaymentService.SoloIsRun | cmd/payment-service/internal/payment/service.go:63-181 | An undisturbed call is a run of the interleaved protocol, so the theorems about runs cover it |
| PaymentService.Service.ProcessFraudResult | cmd/payment-service/internal/payment/service.go:187-264 | A missing payment or failed lookup changes nothing; a settled payment is returned untouched; a pending one ends exactly where the protocol's steps lead; an error is reported exactly when the status write fails |
| PaymentService.SettlingTellsTheTruth | cmd/payment-service/internal/payment/service.go:201-263 | The source pays the target, and both entries are booked, exactly when approved, admitted by the breaker, received in health and allowed by amount, accounts and balance; the status says so unless the reply was lost; the cache follows only a status that was written |
| PaymentService.SettledIsAnnounced | cmd/payment-service/internal/saga/consumer.go:51-63 | The announcement carries the payment's id, fields and status, exactly when the publication takes effect |
| PaymentService.Service.CallAccountService | cmd/payment-service/internal/payment/service.go:222-246 | Money moves exactly when the breaker admits and the account service accepts; success exactly when it moved and the reply arrived; the breaker records that outcome |
| PaymentService.Manager.Start | pkg/idempotency/idempotency.go:50-96 | Reserved, in flight, conflict, completed payment or error, exactly by what is stored and which command fails; a stored record is never overwritten |
| PaymentService.Manager.Complete | pkg/idempotency/idempotency.go:99-120 | The completed record replaces whatever is stored, its hash included, exactly when SET takes effect |
| PaymentService.Manager.Release | pkg/idempotency/idempotency.go:122-125 | The key is deleted, whoever owns it, exactly when DEL takes effect |
| Composition.TransfersLookAtomic | cmd/payment-service/internal/payment/service.go:222-242 | Payments over statement-level, interleaved, failing transfers look like payments over atomic moves; tables and ledger are those of the requests of exactly the committed transactions, in commit order |
| Composition.WholeSystemKeepsTheBooks | cmd/settlement-service/internal/reconciliation/reconciliation.go:88-145 | Payments and transfers together: conservation, agreement, solvency, an empty three-way audit and the exactly-once bound |
| Cascade.EvaluationsAreConserved | cmd/fraud-service/main.go:73-105 | Evaluations made plus evaluable deliveries left is constant: no result event causes another evaluation |
| Cascade.EvaluatedExactlyIfNew | cmd/fraud-service/main.go:73-105 | A delivery is evaluated exactly if its status is empty or PENDING, and the verdict is about its own payment |
| Cascade.CreatedAsInProtocol | cmd/fraud-service/main.go:95-100 | The same evaluation as in the payment protocol |
| Cascade.ResultTexts | cmd/payment-service/internal/saga/consumer.go:52-60 | A handled result is announced as SUCCESS or FAILED by the stored or newly decided status |
| Cascade.OnlyCreatedAreEvaluable | cmd/fraud-service/main.go:73-76 | In every run of the payment protocol all PaymentCreated events pass the fraud filter and no result event does |
| Cascade.PendingAsInProtocol | cmd/payment-service/internal/saga/consumer.go:45-63 | Delivering the result of a pending payment changes status and topic as the steps of the payment protocol do |
| Cascade.PendingIsTakenUp | cmd/payment-service/internal/payment/service.go:201-213 | In the protocol an approval is taken up by asking for the transfer, a rejection by failing the payment |
| Cascade.SettledAsInProtocol | cmd/payment-service/internal/payment/service.go:196-199 | Delivering a result again announces the stored row again, as in the protocol |
| Cascade.CascadeEnds | cmd/fraud-service/main.go:66-113 | No run delivers more messages than the weighted count of its start; weights are 3, 2 and 1 when each message is delivered once |
| Cascade.DrainedMeansEvaluatedOnce | cmd/fraud-service/main.go:73-105 | When the payments topic is drained, each evaluable delivery was evaluated exactly once |
| Cascade.FraudConsumer.Handle | cmd/fraud-service/main.go:73-112 | An event without status or PENDING is checked, and its verdict published exactly when publishing takes effect; any other event changes nothing |
| Cascade.FraudConsumer.AccountOf | cmd/fraud-service/main.go:78-81 | The account checked is the event's source or, without one, the message key |
| Cascade.SagaConsumer.Handle | cmd/payment-service/internal/saga/consumer.go:28-66 | Announced is exactly the stored final status, which the fraud filter ignores; a missing payment, a failed lookup or a failed status write is an error and announces nothing |
| Breaker.CountersTellHistory | pkg/resilience/circuit_breaker.go:60-87 | With overlapping calls, failureCount is the trailing run of failures since CLOSED was entered, and in HALF_OPEN successCount is all completions since, none failed |
| Breaker.OpensAtThreshold | pkg/resilience/circuit_breaker.go:65-73 | CLOSED is left exactly at the failure that brings that run to the threshold |
| Breaker.ClosesAfterSuccesses | pkg/resilience/circuit_breaker.go:75-85 | HALF_OPEN closes exactly when successThreshold completions, all successes, have come, and opens exactly on a failure |
| Breaker.CountersRefineHistory | pkg/resilience/circuit_breaker.go:47-88 | A breaker that keeps no counters and only looks back at the history has the same mode after every history of overlapping calls; in OPEN the counter is the number of failures since the latest opening or re-opening |
| Breaker.AdmitsByHistory | pkg/resilience/circuit_breaker.go:48-58 | A call is admitted exactly unless the history says OPEN since no longer than the timeout |
| Breaker.AdmittedAfterTimeout | pkg/resilience/circuit_breaker.go:48-58 | OPEN admits a call if and only if more than the timeout has passed since the latest opening or re-opening |
| Breaker.NoAdmissionWhileCooling | pkg/resilience/circuit_breaker.go:48-58 | Whatever completes meanwhile, no call is admitted within the timeout after an opening |
| Breaker.HalfOpenAdmitsAll | pkg/resilience/circuit_breaker.go:49-58 | Half-open puts no bound on the number of probes |
| Breaker.CircuitBreaker.Before | pkg/resilience/circuit_breaker.go:48-58 | The first critical section, in place, with its decision |
| Breaker.CircuitBreaker.AfterCall | pkg/resilience/circuit_breaker.go:62-87 | The second critical section, in place |
| Leader.AtMostOneLeader | cmd/settlement-service/internal/leader/election.go:65-115 | In every reachable state at most one elector leads, or has a live leader context, within the lease time of its last lease write, and it holds the lease |
| Leader.OnlyTheHolderChangesTheLease | cmd/settlement-service/internal/leader/election.go:13-29 | Renewing or releasing without holding the lease leaves it alone |
| Leader.HeartbeatBeatsRenewal | cmd/settlement-service/internal/leader/election.go:67-85 | The heartbeat interval is shorter than the whole-second renewal if and only if the ttl is at least one second |
| Leader.PromptLeaderStays | cmd/settlement-service/internal/leader/election.go:82-93 | An elector whose commands are answered and leave within the lease time of the one before is never deposed, however late its ticks come within that, whatever the others do before a command and between it and its reply |
| Leader.PunctualLeaderStays | cmd/settlement-service/internal/leader/election.go:67-93 | In particular ticks every ttl/3 are prompt enough, for every ttl of at least one second |
| Leader.SubSecondRenewalDeletes | cmd/settlement-service/internal/leader/election.go:84-92 | Below one second the first renewal deletes the lease and the next tick deposes the leader |
| Leader.ShutdownOverlap | cmd/settlement-service/internal/leader/election.go:75-80 | From any state with a prompt leader, two leader flags (but one live context) are reachable by shutting it down |
| Leader.TwoLeaderFlags | cmd/settlement-service/internal/leader/election.go:75-80 | A run from the start that ends so |
| Leader.TickDecides | cmd/settlement-service/internal/leader/election.go:81-105 | In every state, whatever happens before the reply is handled: a leader stays leader, with its context, exactly if its command works and the lease is its own and unexpired; another elector becomes leader exactly if it works and there is no lease; the lease afterwards with its expiry |
| Leader.Elector.Tick | cmd/settlement-service/internal/leader/election.go:81-105 | One tick in place: the same decision and lease, outright, and equal to command plus reply of the model |
| Leader.Elector.Stop | cmd/settlement-service/internal/leader/election.go:75-115 | Context cancelled, flag cleared, and the lease gone exactly if it was held by this leader (or run out) and the command took effect |
| Backoff.DelayWrapsOnce | pkg/resilience/circuit_breaker.go:116-118 | Truncating the shift and then the product is one truncation of the exact product |
| Backoff.CapIsExponentialUnlessItWraps | pkg/resilience/circuit_breaker.go:116-121 | The cap is min(maxDelay, base * 2^(k-1)) if and only if the product fits 64 bits or wraps to at least maxDelay |
| Backoff.CapsAscend | pkg/resilience/circuit_breaker.go:116-121 | Without overflow caps never decrease |
| Backoff.LateRetriesDoNotWait | pkg/resilience/circuit_breaker.go:117 | From attempt 65 on there is no wait |
| Backoff.OverflowSkipsTheWait | pkg/resilience/circuit_breaker.go:118-125 | A base of 100 ms overflows at attempt 38 |
| Backoff.SleepsAreBounded | pkg/resilience/circuit_breaker.go:123-129 | However caps overflow, every sleep is 0 or in [0, maxDelay), at most (n-1) * maxDelay in all |
| Backoff.RetryWithBackoffJitter | pkg/resilience/circuit_breaker.go:91-139 | fn is called at most n times; nil comes back exactly when an attempt is reached and succeeds, right after it; exhaustion exactly when all fail; sleeps as bounded |
| Window.PrunedIsRecent | cmd/api-gateway/internal/gateway/middleware.go:22-23 | What pruning leaves of the stored set is exactly the recent part of the full history |
| Window.WindowBound | cmd/api-gateway/internal/gateway/middleware.go:20-30 | If each approval saw at most max stamps, every interval of one window length holds at most max |
| RateLimiter.KeyRefinesHistory | cmd/api-gateway/internal/gateway/middleware.go:15-32 | The pruned, expiring set decides every request as the full history would |
| RateLimiter.OneClockIsOrderly | cmd/api-gateway/internal/gateway/middleware.go:27 | The rounded-up expiry never drops a stamp that still counts, for non-decreasing times on one clock |
| RateLimiter.AtMostLimitPerWindow | cmd/api-gateway/internal/gateway/middleware.go:25-30 | The stored key admits at most limit distinct timestamps in any interval of one window length |
| RateLimiter.AtMostLimitAndFailuresPerWindow | cmd/api-gateway/internal/gateway/middleware.go:78-95 | What is served in any interval of one window length: at most limit distinct timestamps, and those of requests served because Redis fails |
| RateLimiter.AtMostLimitDespiteReordering | cmd/api-gateway/internal/gateway/middleware.go:74-95 | The same without any order of timestamps, for requests that reach Redis within a lag of them, and intervals shorter by that lag |
| RateLimiter.AtMostLimitRequestsPerWindow | cmd/api-gateway/internal/gateway/middleware.go:25-30 | If admitted timestamps are distinct, the stored key admits at most limit requests |
| RateLimiter.AtMostLimitAndFailedRequestsPerWindow | cmd/api-gateway/internal/gateway/middleware.go:78-95 | If admitted timestamps are distinct: at most limit requests are served, and those served because Redis fails |
| RateLimiter.RejectionsUseNoSlot | cmd/api-gateway/internal/gateway/middleware.go:25-31 | Leaving out all rejected requests changes no later answer of the stored key |
| RateLimiter.SameInstantBurst | cmd/api-gateway/internal/gateway/middleware.go:25-26 | The stored key lets a burst with one timestamp pass whole if and only if limit is at least 2 or the burst fits it |
| RateLimiter.Limiter.Eval | cmd/api-gateway/internal/gateway/middleware.go:15-32 | The script in place decides and counts like the full history |
| RateLimiter.Limiter.RateLimit | cmd/api-gateway/internal/gateway/middleware.go:66-97 | Served on any Redis error, otherwise exactly while fewer than limit recent stamps |
| Velocity.KeyCountsEveryAttempt | cmd/fraud-service/internal/fraud/service.go:35-60 | The stored set decides like the history of all attempts, rejected ones included |
| Velocity.AtMostTenPerMinute | cmd/fraud-service/internal/fraud/service.go:30-62 | The stored key approves at most ten distinct stamps in any minute less the skew of the two clock readings |
| Velocity.AtMostTenAndFailuresPerMinute | cmd/fraud-service/internal/fraud/service.go:41-62 | What passes in such a minute: at most ten distinct stamps, and those of attempts that pass because Redis fails |
| Velocity.SteadyAttemptsStarve | cmd/fraud-service/internal/fraud/service.go:37-60 | At a steady pace above ten a minute exactly the first ten attempts are ever approved |
| Velocity.FraudService.CheckPayment | cmd/fraud-service/internal/fraud/service.go:24-63 | Amounts over 10,000.00 are rejected without touching Redis; otherwise approved exactly on a Redis error or with at most ten attempts in the last minute, this one included |

## Left out

- HTTP handlers, routing, the reverse proxy, configuration, connections, logging and tracing: plumbing.
- The configured figures (300 requests a minute; threshold 5, two successes, 10 s): parameters of `RateLimiter.Limiter` and `Breaker.CircuitBreaker`.
- Notifications, webhooks, the load generator and the dashboards: no state that other parts depend on.
- Currency, description and reason texts: no branch of a transfer depends on them, and a duplicate result may change the reason.
- Ids and timestamps of ledger rows: generated and never read by a transfer.
- Rounding of float64 amounts and of sorted-set scores: amounts and times are exact integers; only the audit's comparison with 0.0001 is left open at that very value.
- LedgerAudit.AuditLedgerIntegrity: for balances up to about 2 * 10^11, which float64 holds finely enough to tell two units apart; beyond, the source can miss more.
- Rebalancing of Kafka partitions: two consumers that handle results of one payment at once are not modelled.
- A COMMIT of a transfer that takes effect but reports an error: its answer counts among the lost replies of `Payments`; the tables are covered, since a transfer either commits or does not.
- RateLimiter.KeyRefinesHistory: needs non-decreasing timestamps and an expiry that comes no earlier than the window; requests that reach Redis in another order, from one gateway or several, are covered by the bound of RateLimiter.AtMostLimitDespiteReordering only.
- Leader.AtMostOneLeader: says nothing of an elector whose tick takes longer than its lease; such an elector and a new leader can coexist.
- Payments.Run: every call and attempt is served by one circuit breaker opening at will; the breaker's own rules are in `Breaker`, and `PaymentService` joins the two.
- PaymentService.Service.CreatePayment: one call that nothing interrupts; interleavings are in `Payments`, of which it is a run.
- Expiry of completed idempotency records is an action of `Payments`, without a clock.
- Order of messages within a Kafka partition: deliveries come in any order and any number of times, which includes the real ones.
