# A verified model of the watcher, the dispatcher and the energy buffer

This project models, in Dafny 4.11, the stateful core of a USDT conversion service: the
deposit watcher that turns agreed chain logs into ledger credits, the dispatcher that
broadcasts payouts and closes orders, the broker's energy buffer, and the codecs they
rely on. It proves what the protocols are for, over whole runs with crashes, lost replies
and concurrent callers. `dafny verify dfyconfig.toml` checks all of it.

| file | models |
|---|---|
| `Agreement.dfy` | the synchronous N-of-M round and the provider pool's checks |
| `AsyncConfirmations.dfy` | per-candidate asynchronous confirmations, and the height monitor |
| `Deposits.dfy` | one deposit's life across memory, tables and ledger, as an automaton |
| `Tracker.dfy` | the finality tracker in both modes, each tick shown to be runs of that automaton |
| `Watcher.dfy` | scanning, attribution, the cursor, ticks, crash and restart |
| `Leases.dfy`, `LeaseRuns.dfy` | the deposit-wallet pool, attribution by block time, and concurrent `Assign` |
| `Attempts.dfy` | exactly-once broadcast under a row lock, any number of callers |
| `Dispatch.dfy` | holding and settling orders against the ledger and the chain |
| `EnergyBuffer.dfy` | one-row-at-a-time claiming under SKIP LOCKED, with expiry corrections |
| `Sweep.dfy` | queueing, cutting and resumable settlement of batches |
| `Ingestion.dfy` | the window of seen blocks |
| `Base58.dfy`, `Money.dfy` | base58 decoding; decimal amounts |
| `Sets.dfy`, `Wrappers.dfy` | finite-set facts; Option and Result |

How it is built. Code that changes state is a class with the source's fields and methods
with loops; its contracts tie the new state to a function or a step of a small machine,
and the lemmas are about those functions and machines. In the concurrent machines one SQL
statement, one committed transaction or one outside call is one step, and a step's outside
answers (failures, lost replies, the winner of a race) are part of its event. A class method
run alone is shown to be a run of the machine. Clocks, providers, the chain, the signer, the
ledger and the energy vendors are parameters that may answer anything; "with fewer than
threshold faulty providers" is always an explicit hypothesis.

A process may die between any two writes. In the watcher such a death leaves what a tick
leaves whose remaining calls fail, followed by `CrashAndRestart`; in the dispatcher, buffer
and pool it is a step of its own.

## What turned out false

Each of these is stated by the lemma or contract named: a concrete run, the exact condition, or both.

- A DROPPED deposit may have been credited, by a report whose reply was lost or one forgotten in a restart (`Deposits.DroppedYetCreditedIff`, and two runs), and an ORPHANED one too, by a report that was booked unheard and sent again when the order had moved on or the log was decoded otherwise (`Deposits.OrphanedYetCreditedIff`, and two runs).
- Asynchronous confirmations are not order-independent once a provider changes its own answer (`AsyncConfirmations.OrderMattersWhenAProviderRecants`).
- A lease cooldown of 29 s or less misattributes payments (`Leases.ShortCooldownMisattributes`), and so does a retirement cut off between its two statements (`LeaseRuns.CutOffRetirementMisattributes`).
- A HELD order may have been paid by an attempt begun between the reconciliation's look and its report (`Dispatch.HeldYetPaid`, `Dispatch.HeldYetPaidIff`).
- A confirmation whose settlement was committed, but which then ended, cannot be retried except with the very time it gave, although `markStatus` was written for that retry and the polling loop passes the current time: the order stays DISPATCHING and the attempt BROADCAST (`Dispatch.RetryCompletesIff` and `Dispatch.UnsettledForGood`, exactly when; `Dispatch.SettledButDispatching`, a run).
- A reconciliation pass that ends after the ledger has held an order, and before dispatch_state says so, leaves it DISPATCHING for good (`Dispatch.HeldAtLedgerLeavesIff`, exactly when; `Dispatch.HeldButDispatching`, a run).
- A freeze may end with the attempt BROADCAST and no alert, contrary to the comment above `HandleMidFlightFreeze`: exactly when the broadcast lands between its read and its update (`Dispatch.FreezeMissesBroadcast`, a run; `Dispatch.Desk.HandleMidFlightFreeze`, the condition).
- Two overlapping settlement runs of one batch can have an order paid by two batches (`Sweep.OverlappingRunsPayTwice`, a run; `Sweep.PaidTwiceIff`, exactly when). One order the ledger refuses stops every later order of its batch in every run (`Sweep.StuckOrderBlocks`), and so does a repeated run with another timestamp (`Sweep.AnotherTimestampIsRefused`).
- `Assign` does not always return an order its existing address: it can refuse while the order holds a lease. Apart from statements that fail, this happens in two ways, and no others (`LeaseRuns.RefusedYetLeasedIff`): another call for the same order leases a wallet after this one last looked, and this one then finds the pool full, the new address taken, or its fifth attempt over (`LeaseRuns.RefusedWhileAnotherIsAnswered`); or its own fifth attempt provisions the wallet, which only a sixth would have found (`LeaseRuns.RefusedYetLeased`). A call begun later gets the address (`LeaseRuns.LeasedOrderIsAnswered`).

## Model

| member | source | states |
|---|---|---|
| Agreement.ResolveAgreement | depositwatcher/internal/chain/agreement.go:34-111 | returns the one verdict a round allows: the unique largest group at or above the threshold, a tie at the top, or none; exactly the winning group is credited, and exactly the unreachable providers and, when two answers differ, those not in the winning group are blamed, each with its own reason |
| Agreement.FindWinner | depositwatcher/internal/chain/agreement.go:45-65 | whatever order the groups are visited in, the outcome is a unique strictly largest group, a tie, or nobody at the threshold |
| Agreement.VerdictUnique | depositwatcher/internal/chain/agreement.go:34-111 | two rounds with the same replies, in any order, have the same verdict |
| Agreement.MajorityNeverAmbiguous | depositwatcher/internal/chain/agreement.go:45-65 | a threshold above half the providers rules out a tie |
| Agreement.WinnerIsVouchedFor | depositwatcher/internal/chain/agreement.go:8-33 | with fewer than threshold faulty providers, whatever holds of every honest answer holds of the winner |
| Agreement.HonestMajorityPrevails | depositwatcher/internal/chain/agreement.go:34-111 | if honest providers at the threshold all answer alike and the faulty ones are fewer than it, that answer wins |
| Agreement.CreditAndBlamePartition | depositwatcher/internal/chain/agreement.go:67-100 | credited and blamed are disjoint, and together miss a provider only when a lone group fell short of the threshold |
| Agreement.NewPool | depositwatcher/internal/chain/pool.go:80-125 | accepts exactly: two providers or an allowed single one, non-empty distinct names, no nil client, threshold within the count; defaults the threshold to 2, or 1 for a single provider |
| AsyncConfirmations.CandidateConfirmations.RecordConfirmed | depositwatcher/internal/finality/async.go:221-282 | after any history the status returned is the outcome of the whole history: alert for good once two providers contradicted each other, else quorum, not-found or pending by the providers' latest observations |
| AsyncConfirmations.CandidateConfirmations.CurrentStatus | depositwatcher/internal/finality/async.go:286-303 | reads that same outcome without changing anything |
| AsyncConfirmations.AlertIsTerminal | depositwatcher/internal/finality/async.go:263-282 | a disagreement is never undone by later observations |
| AsyncConfirmations.LatestIsConsistent | depositwatcher/internal/finality/async.go:221-261 | without an alert, the latest observations agree on the block, and the PRESENT ones on the facts |
| AsyncConfirmations.QuorumIsVouchedFor | depositwatcher/internal/finality/async.go:201-261 | with fewer than threshold faulty providers, the facts behind any quorum satisfy whatever every honest PRESENT observation does |
| AsyncConfirmations.NotFoundIsVouchedFor | depositwatcher/internal/finality/async.go:201-261 | with fewer than threshold faulty providers, an ASYNC_NOT_FOUND rests on an honest provider that looked and found nothing |
| AsyncConfirmations.OutcomeIsSetOutcome | depositwatcher/internal/finality/async.go:292-303 | when each provider sends one observation, repeats allowed, the status is a function of the set: alert iff two differ on block or two PRESENT ones on facts, else quorum iff enough PRESENT, else not-found iff enough ABSENT, else pending |
| AsyncConfirmations.OrderDoesNotMatter | depositwatcher/internal/finality/async.go:221-303 | so any permutation ends in the same status |
| AsyncConfirmations.OrderMattersWhenAProviderRecants | depositwatcher/internal/finality/async.go:221-261 | two orders of the same observations with different statuses, once one provider changes its own block hash |
| AsyncConfirmations.ProviderHeightMonitor.Check | depositwatcher/internal/finality/async.go:363-379 | accepts exactly the heights not below the provider's highest accepted one, and remembers only accepted ones |
| Deposits.RunKeeps | depositwatcher/internal/finality/finality.go:366-393 | over any run of scans, checks, lost replies and restarts: pending and finalized are disjoint, a pending deposit is stored and undecided, what is recorded REPORTED is credited, and no row, orphan or credit is lost or rewritten |
| Deposits.RunAccounts | depositwatcher/internal/finality/finality.go:360-394 | over every run: what is stored, pending or credited was observed; an orphan record was made at a scan or is that of an observed deposit; ORPHANED has its orphan record, and DROPPED was written by a drop before finality |
| Deposits.DecidedIsFinal | depositwatcher/internal/deposits/deposits.go:32-95 | once stored REPORTED, ORPHANED or DROPPED a deposit never becomes pending again and is never sent to the ledger again |
| Deposits.CreditedOnce | depositwatcher/internal/finality/finality.go:551-582 | a run adds at most one credit for a deposit, and exactly one if it ends REPORTED |
| Deposits.BootResumes | depositwatcher/internal/finality/finality.go:396-415 | after a restart exactly the stored DETECTED deposits are pending, with no votes |
| Deposits.RecordMatchesLedger | depositwatcher/internal/finality/finality.go:551-582 | when a log is always decoded alike: REPORTED is credited with exactly the stored facts, only stored deposits are credited, and ORPHANED is credited exactly if a booked report was sent again once its order was past funded |
| Deposits.RecoveryCompletes | depositwatcher/internal/finality/finality.go:417-428 | whatever failed before, a restart and one report finish an undecided deposit while its order is quoted, or funded by it |
| Deposits.OrphanedYetCreditedIff | depositwatcher/internal/finality/finality.go:551-569 | over every run: the deposit ends ORPHANED and credited exactly if a booked report was sent again, was refused because the order was past funded or the log now came to another entry (order, accounts, amount or time), and the refusal was recorded |
| Deposits.OrphanedYetCreditedWitness | depositwatcher/internal/finality/finality.go:551-569 | a run in which that happens: the log is decoded differently in between |
| Deposits.OrphanedOnceScreenedWitness | depositwatcher/internal/finality/finality.go:551-569 | and one with nothing decoded differently: the reply is lost, and the order screened before the next report |
| Deposits.CreditedIff | depositwatcher/internal/finality/finality.go:551-582 | the ledger holds a credit exactly if some report of the run met an open order, heard or not |
| Deposits.DroppedYetCreditedIff | depositwatcher/internal/finality/finality.go:491-502 | over every run: the deposit ends DROPPED and credited exactly if it was dropped after a report that met an open order, whether its reply was lost or it was accepted and then forgotten in a restart |
| Deposits.DroppedYetCreditedWitness | depositwatcher/internal/finality/finality.go:491-502 | a run in which that happens: a lost reply, then a reorg |
| Deposits.DroppedAfterRestartWitness | depositwatcher/internal/finality/finality.go:491-502 | another: the report is accepted, its status write fails, and after a restart the deposit is dropped |
| Deposits.CheckMeans | depositwatcher/internal/finality/async_driver.go:154-244 | one provider's check is no vote unless it is final at the deposit's height, gives a hash and looks; then it is one vote, PRESENT exactly if it found the deposit, and what follows is what the votes come to |
| Deposits.AsyncReportIsBacked | depositwatcher/internal/finality/async_driver.go:218-225 | the asynchronous driver reports only while no contradiction has been seen and at least the threshold of providers' latest observations are PRESENT with one block, order and amount |
| Deposits.AsyncReportMeans | depositwatcher/internal/finality/async_driver.go:176-225 | over every run: when the asynchronous driver reports a deposit, at least the threshold of providers, each final at its height, have given one block hash there and found the deposit in it with one amount |
| Deposits.AsyncDropMeans | depositwatcher/internal/finality/async_driver.go:176-229 | over every run: when it drops one, at least the threshold of providers, each final at its height, have not found it there |
| Deposits.AsyncAnswersAreHonest | depositwatcher/internal/finality/async_driver.go:154-229 | so with fewer than threshold lying providers an honest one found what is reported, and an honest one found missing what is dropped |
| Deposits.DisagreementHolds | depositwatcher/internal/finality/async_driver.go:230-240 | until a restart a candidate in disagreement stays pending, is not reported, finalized or dropped |
| Deposits.AlertsOnce | depositwatcher/internal/finality/async_driver.go:230-240 | and alerts once, in the step its providers first disagree |
| Deposits.AsyncDropIsForgottenByBoot | depositwatcher/internal/finality/async_driver.go:226-229 | the asynchronous drop writes no status, so a restart takes the deposit up again |
| Tracker.DepositTable.Save | depositwatcher/internal/deposits/deposits.go:32-53 | inserts unless present and returns the stored status; a failed insert changes nothing |
| Tracker.OrphanTable.Record | depositwatcher/internal/orphaned/orphaned.go:55-66 | idempotent on the deposit's key |
| Tracker.ObservingCell | depositwatcher/internal/finality/finality.go:360-394 | what OnLogObserved does to the tables is one Observed step of that deposit and no step of any other |
| Tracker.Tracker.OnLogObserved | depositwatcher/internal/finality/finality.go:360-394 | stores before tracking: pending only if the row is stored and undecided; succeeds exactly when already tracked, worth nothing, or stored |
| Tracker.Tracker.Restore | depositwatcher/internal/finality/finality.go:398-415 | takes every deposit through a restart step |
| Tracker.FinalizingCell | depositwatcher/internal/finality/finality.go:551-605 | finalize with HandleUnreportable is one Finalize step of that deposit: retried, recorded as orphaned and closed, or reported and remembered |
| Tracker.Tracker.FinalizeOne | depositwatcher/internal/finality/finality.go:551-605 | does that, and no more, to the tracker, the tables and the ledger |
| Tracker.Tracker.CheckFinality | depositwatcher/internal/finality/finality.go:463-522 | without agreement on the finalized block nothing moves; with it every deposit at or below it whose height's logs are agreed is finalized if present and dropped if not, independently of all others and of map order |
| Tracker.Tracker.CheckPostFinalReorgs | depositwatcher/internal/finality/finality.go:620-690 | forgets exactly the finalized deposits reported over ten minutes ago, and those that the providers agree are gone from their height and whose reorg report went through |
| Tracker.ForgottenIsGone | depositwatcher/internal/finality/finality.go:620-690 | with fewer than threshold lying providers, a deposit forgotten within its ten minutes is missing from an honest provider's logs at its height |
| Tracker.VotedCell | depositwatcher/internal/finality/async_driver.go:154-244 | one provider's vote on a candidate and what follows from it is one AsyncCheck step of that deposit |
| Tracker.Tracker.CheckOneCandidateAsync | depositwatcher/internal/finality/async_driver.go:154-244 | a transport error or an undecodable log is no vote; otherwise the provider's own two look-ups become one vote |
| Tracker.Tracker.CheckFinalityAsync | depositwatcher/internal/finality/async_driver.go:61-117 | provider by provider, each heard provider whose height has not regressed votes once on every pending candidate it has reached, then the shared re-check |
| Tracker.SyncEvents | depositwatcher/internal/finality/finality.go:463-510 | a synchronous tick is, per deposit, a run of at most one finalize or drop and one re-check, so all that is proved of runs holds of ticks |
| Tracker.SettledMeans | depositwatcher/internal/finality/finality.go:463-502 | of the pending deposits the agreed final block has reached, exactly those whose height's logs are agreed on are reported if among them and dropped if not |
| Tracker.AsyncEvents | depositwatcher/internal/finality/async_driver.go:61-85 | likewise an asynchronous tick |
| Tracker.AsyncEventsAreAnswers | depositwatcher/internal/finality/async_driver.go:61-117 | an asynchronous tick's checks carry only what their provider answered for that deposit, at a final height not below its highest |
| Tracker.SyncReportIsBacked | depositwatcher/internal/finality/finality.go:454-510 | with fewer than threshold lying providers, a report is for a block an honest provider calls final and a log an honest provider sees there |
| Tracker.SyncEventsAreBacked | depositwatcher/internal/finality/finality.go:454-510 | with fewer than threshold lying providers, each report or drop of a synchronous tick is for a block an honest provider calls final, and a log an honest provider sees there, or does not |
| Watcher.Classify | depositwatcher/internal/chain/classify.go:121-134 | zero, exact, over, dust and under, each exactly by amount, quote and floor |
| Watcher.Watcher.ProcessTransfer | depositwatcher/internal/candidates/candidates.go:112-139 | the transfer is attributed to the lease open on its wallet at its block time; no lease, a lease ended by then, or dust makes it an orphan, anything else is handed to the tracker |
| Watcher.Watcher.ProcessLog | depositwatcher/internal/candidates/candidates.go:96-153 | a log of the wrong shape is skipped, an amount out of range or a missing block time fails; one look per block at its time |
| Watcher.Watcher.ScanRange | depositwatcher/internal/candidates/candidates.go:59-89 | an empty watch set needs no query; otherwise the agreed logs come, in order and up to the first failure, to the events they imply; on success each has been handled, and a failure names the answer that was missing or the log that could not be processed |
| Watcher.Watcher.ScanNext | depositwatcher/internal/candidates/loop.go:96-117 | one scan of at most ten blocks from the cursor, which moves only past a finished scan |
| Watcher.Watcher.RunTick | depositwatcher/internal/candidates/loop.go:75-134 | keeps the whole-run invariant whatever fails; a successful tick moves the cursor exactly to the lesser of the ingested height and ten further, then checks finality in the configured mode; it fails only for a query, write or agreement it did not get, or an amount out of range |
| Watcher.Watcher.CrashAndRestart | depositwatcher/internal/finality/finality.go:396-415 | only tables, ledger and cursor survive; afterwards exactly the stored DETECTED deposits are pending |
| Watcher.NoDepositLost | depositwatcher/internal/candidates/loop.go:93-117 | over any run, with fewer than threshold lying providers in the scans that were committed: each height above the start and up to the persisted cursor lies in exactly one such scan, and every log its range held for the wallets then watched is a stored deposit, an orphan, of zero value, or not a transfer |
| Watcher.NothingMadeUp | depositwatcher/internal/candidates/candidates.go:112-139 | over every run: a stored or credited deposit was paid in that amount, by that sender, at that height and block time, by an agreed log with its key, to the wallet then leased to its order; an orphan record has the amount of such a log, and a reason that held or the order of a deposit so paid |
| Watcher.HandledRemain | depositwatcher/internal/candidates/candidates.go:53-58 | a handled log stays handled through scans, ticks and restarts |
| Watcher.CoveredOnce | depositwatcher/internal/candidates/loop.go:93-117 | recorded scans cover (start, cursor] without gap or overlap |
| Watcher.OnlyTheLastRangeRepeats | depositwatcher/internal/candidates/loop.go:93-117 | a later scan starts over exactly where the cursor was left, and lies above every recorded scan |
| Watcher.BacklogClears | depositwatcher/internal/candidates/loop.go:94-107 | a fixed backlog B is cleared by a number of successful ticks exactly when it is at least B/10 rounded up |
| Watcher.TablesMatchLedger | depositwatcher/internal/finality/finality.go:551-582 | at any point of any run, for a log always decoded and attributed alike: REPORTED is credited as stored, only stored deposits are credited, and ORPHANED is credited exactly if a booked report was sent again once its order was past funded |
| Leases.Attribute | depositwatcher/internal/addresses/pool.go:328-342 | the most recent lease on the wallet that had started by block time plus 30 s, judged late if it ended by then |
| Leases.AttributionIsExact | depositwatcher/internal/candidates/candidates.go:111-123 | if wallets rest more than 29 s between leases, a payment inside a lease is credited to exactly that lease, and one after it, until 30 s before the next, to none |
| Leases.ShortCooldownMisattributes | depositwatcher/internal/addresses/pool.go:328-342 | 29 s is the limit: any shorter rest lets a payment inside one lease be credited to the next |
| Leases.LeaseStore.LeaseFromPool | depositwatcher/internal/addresses/pool.go:102-127 | leases the first eligible wallet in lease order, or changes nothing when none is eligible, the order has a lease, or another order took the selected wallet first |
| Leases.ChosenMeans | depositwatcher/internal/addresses/pool.go:102-119 | the wallet leased is active, rested and unleased; none such has received a deposit unless it has, and among those alike none was leased longer ago, nor at the same time with a lower index |
| Leases.LeaseStore.Provision | depositwatcher/internal/addresses/pool.go:171-242 | a wallet become idle, else refusal at the size limit, else a new wallet under the next index, leased in the same step |
| Leases.LeaseStore.Assign | depositwatcher/internal/addresses/store.go:135-174 | an order with a lease gets the same address back; otherwise the first wallet free is leased, else, while there is room, exactly one new wallet under the next index; refusal exactly when nothing is free and the pool is full or the new address is taken |
| Leases.LeaseStore.Retire | depositwatcher/internal/addresses/store.go:228-257 | ends the lease once and rests its wallet for the cooldown after expiry, or after use, by the reason given; a repeat changes nothing |
| LeaseRuns.AssignIsSafe | depositwatcher/internal/addresses/store.go:135-174 | from any sound state, however callers, retirements, setting changes and crashes interleave, the invariant holds, leases keep their wallet and the pool stays within the largest limit |
| LeaseRuns.ConcurrentAssignIsSafe | depositwatcher/internal/addresses/pool.go:165-242 | from an empty pool: no wallet has two open leases, no order two leases, every address a caller was given is its order's, and the pool never outgrows its limit (which callers are refused although their order has a lease: RefusedYetLeasedIff) |
| LeaseRuns.AssignIsARun | depositwatcher/internal/addresses/store.go:135-174 | what a call alone comes to is what an undisturbed caller comes to in the machine of concurrent callers |
| LeaseRuns.LeasedOrderIsAnswered | depositwatcher/internal/addresses/store.go:139-143 | a call that begins when the order has a lease is answered with that address, whatever else is going on |
| LeaseRuns.FifthLeaseIsNotReturned | depositwatcher/internal/addresses/store.go:146-173 | a caller whose own provisioning leased its wallet finds the lease in its next attempt, or is refused if there is none left |
| LeaseRuns.RefusedYetLeasedIff | depositwatcher/internal/addresses/store.go:146-173 | from any reachable state, a step refuses its caller while the order holds a lease exactly if the order was leased after the caller's last look-up and the caller then finds the pool full, the new address taken or its fifth attempt over, or if the fifth attempt is itself leasing the wallet |
| LeaseRuns.SoleCallerLeasesTooLate | depositwatcher/internal/addresses/store.go:146-173 | with one caller for the order, only the fifth attempt's own lease does that |
| LeaseRuns.RefusedYetLeased | depositwatcher/internal/addresses/store.go:146-173 | a run from an empty pool in which an order's only caller is refused while the order holds the wallet provisioned for it |
| LeaseRuns.RefusedWhileAnotherIsAnswered | depositwatcher/internal/addresses/pool.go:188-203 | a run from an empty pool in which, of two callers for one order, one is given the wallet and the other, in its first attempt, is refused because the pool is full |
| LeaseRuns.PaymentsReachTheirOrder | depositwatcher/internal/candidates/candidates.go:111-123 | over every run whose cooldowns exceed 29 s and whose retirements complete, a payment made while a lease was open is credited to that lease, and one made after it, until 30 s before the next, to none |
| LeaseRuns.NextLeaseWaits | depositwatcher/internal/addresses/store.go:228-257 | over every run: once a lease is retired, its wallet is not leased again before the cooldown then set for that reason has passed |
| LeaseRuns.CutOffRetirementMisattributes | depositwatcher/internal/addresses/store.go:233-255 | a run, whatever the cooldowns, in which one retirement cut off between its two statements has a payment credited to the next order |
| Attempts.BroadcastOnce | dispatcher/internal/dispatch/broadcast.go:60-96 | for any interleaving, an attempt's accepted submissions are those undone after acceptance plus at most one, one exactly if it is on chain; and all its submissions are one signed transaction |
| Attempts.RunKeeps | dispatcher/internal/dispatch/attempts.go:84-258 | statuses only move forward, the stored signature is written once, rows are never lost, locks are held by callers inside their transaction alone |
| Attempts.NoSubmissionAfter | dispatcher/internal/dispatch/attempts.go:155-176 | an attempt that is FAILED, BROADCAST or CONFIRMED is never submitted afterwards, and FAILED stays FAILED |
| Attempts.StepSubmits | dispatcher/internal/dispatch/broadcast.go:158-187 | only a SIGNED attempt is ever handed to the chain |
| Attempts.SuccessIsReal | dispatcher/internal/dispatch/broadcast.go:97-117 | a caller told BROADCAST or CONFIRMED has its own transfer on chain, accepted at least once |
| Attempts.FailedMeans | dispatcher/internal/dispatch/broadcast.go:123-154 | over every run: an attempt is FAILED only if it was failed from outside or the signer answered a caller's request for it with a rejection |
| Attempts.StoredWasGiven | dispatcher/internal/dispatch/attempts.go:181-233 | over every run: a stored signature was given by the signer for that attempt, and a stored transaction id by the chain for its submission |
| Attempts.Dispatcher.Create | dispatcher/internal/dispatch/attempts.go:84-118 | inserts a BUILT row with the call's own contents, or gives back the row of the same transfer, or fails, exactly by the rows and the database's answers; all of it steps of the machine |
| Attempts.Dispatcher.EnsureSigned | dispatcher/internal/dispatch/broadcast.go:123-154 | answers SignaturePending exactly if the row was BUILT and the signer answered so, leaving it BUILT; SignatureRejected, failing it, exactly on a rejection; stores an approved signature; and takes a row already signed or further as it is; all of it steps of the machine |
| Attempts.Dispatcher.EnsureBroadcast | dispatcher/internal/dispatch/broadcast.go:158-196 | under the row lock, submits exactly a SIGNED row with its stored signature, and has it BROADCAST with the chain's transaction id exactly if the chain took it and the commit took effect; all of it steps of the machine |
| Attempts.Dispatcher.Broadcast | dispatcher/internal/dispatch/broadcast.go:97-117 | run alone, takes exactly the machine's steps for its caller to the end, each answered as the world answers it; a pending signature leaves its attempt BUILT, and a rejected one leaves it FAILED |
| Dispatch.HeldYetPaidIff | dispatcher/internal/dispatch/reconcile.go:33-67 | with each new attempt started only after the last FAILED: a HELD order was paid exactly if an acceptance for one of its attempts went unrecorded, or an attempt begun after the pass looked is stored BROADCAST or CONFIRMED or is being committed as such |
| Dispatch.HeldWasNotPaid | dispatcher/internal/dispatch/reconcile.go:33-67 | so with no such rollback and no later attempt, a HELD order was not paid |
| Dispatch.HeldHadFailed | dispatcher/internal/dispatch/reconcile.go:33-62 | over every run: the ledger has an order held only if a pass read its latest attempt as FAILED |
| Dispatch.HeldYetPaid | dispatcher/internal/dispatch/reconcile.go:33-67 | a run, with no rollback, that holds a paid order: the next attempt is broadcast between the pass's look and its report |
| Dispatch.SettledWasPaidOnce | dispatcher/internal/dispatch/finality.go:71-116 | a SETTLED order was accepted once by the attempt that settled it and by no other, apart from acceptances that went unrecorded |
| Dispatch.SettledWasFinal | dispatcher/internal/dispatch/finality.go:83-97 | over every run: the ledger has an order settled by an attempt as of a time only if the chain told a confirmation of that attempt, as of that time, that its payout is final |
| Dispatch.DecidedOnce | dispatcher/internal/dispatch/store.go:117-136 | an order leaves DISPATCHING once, for good |
| Dispatch.LocalMatchesLedger | dispatcher/internal/dispatch/finality.go:90-110 | dispatch_state says HELD or SETTLED only when the ledger does, by the same attempt |
| Dispatch.UnsettledForGood | dispatcher/internal/dispatch/finality.go:94-110 | over every run: once an order is settled at the ledger and the call that did it has ended with neither dispatch_state nor the attempt told, they stay as they are unless a confirmation gives the very time booked |
| Dispatch.RetryCompletesIff | dispatcher/internal/dispatch/finality.go:94-116 | such an order is completed by a later confirmation, every call answered, exactly if that gives the time booked; with any other time nothing changes at all |
| Dispatch.SettledButDispatching | dispatcher/internal/dispatch/finality.go:94-110 | a run in which the settlement's reply is lost and the retry, at another time, is refused: the order is paid, settled at the ledger, DISPATCHING and its attempt BROADCAST |
| Dispatch.HeldAtLedgerLeavesIff | dispatcher/internal/dispatch/reconcile.go:49-64 | from any sound state, over every run: an order held at the ledger and DISPATCHING can leave DISPATCHING exactly while the pass that held it is about to mark it |
| Dispatch.HeldButDispatching | dispatcher/internal/dispatch/reconcile.go:49-64 | a run in which the pass dies there, and the order is held at the ledger and DISPATCHING for good |
| Dispatch.FreezeMissesBroadcast | dispatcher/internal/dispatch/freeze.go:36-61 | a run in which the freeze reads SIGNED, the broadcast is submitted and committed, and the freeze ends without an alert |
| Dispatch.Desk.LatestForOrder | dispatcher/internal/dispatch/attempts.go:140-153 | the order's attempt with the highest number, none only if it has none |
| Dispatch.Desk.HandleMidFlightFreeze | dispatcher/internal/dispatch/freeze.go:36-61 | FAILED is written only over BUILT or SIGNED; the alert follows the attempt as first read, so exactly an attempt broadcast in between is left without one |
| Dispatch.Desk.ReconcileFailedDispatches | dispatcher/internal/dispatch/reconcile.go:27-69 | order by order up to the first error, exactly the listed orders whose latest attempt FAILED and which the ledger still has dispatching are held and counted; nothing else changes, and with every call answered no turn fails |
| Dispatch.Desk.ConfirmFinality | dispatcher/internal/dispatch/finality.go:71-116 | a CONFIRMED attempt is returned at once; unless the chain answers that the payout is final nothing changes, and false is answered exactly if it answers that it is not; true otherwise only after the ledger and dispatch_state have the order settled by this attempt and it is CONFIRMED, every call having succeeded; with every call answered, a final attempt gets there exactly if its order is still dispatching, or was settled by it with the same occurredAt |
| EnergyBuffer.RowsGoToOneAllocation | energybroker/internal/buffer/reserve.go:70-110 | for any interleaving of reservations, deaths, corrections and inserts, a row goes to one allocation for good, each allocation's units are the sum of its rows', and a granted caller has at least what it asked for, under its own slot, in rows that expire after its request |
| EnergyBuffer.OnlyAvailableIsGiven | energybroker/internal/buffer/reserve.go:73-108 | over every run: a row that is not AVAILABLE is never given to anyone afterwards |
| EnergyBuffer.UnitsAreConserved | energybroker/internal/buffer/queries.go:101-180 | total units over all statuses grow by exactly what is inserted |
| EnergyBuffer.FailureChangesNothing | energybroker/internal/buffer/reserve.go:92-118 | a refused, exhausted or dead reservation leaves rows and allocations as they were, and so does one that ends in an error, except exactly when its commit took effect unheard |
| EnergyBuffer.ExhaustedMeans | energybroker/internal/buffer/reserve.go:70-94 | a reservation runs out only when every AVAILABLE, unexpired row of its slot is being claimed by another |
| EnergyBuffer.ReservingDoes | energybroker/internal/buffer/reserve.go:96-108 | exactly the claimed rows become RESERVED for the allocation, whose units they make up |
| EnergyBuffer.PrefixMeans | energybroker/internal/buffer/reserve.go:73-90 | rows claimed one at a time are distinct, eligible and in order of expiry, and no unclaimed eligible row expires before a claimed one |
| EnergyBuffer.Buffer.Reserve | energybroker/internal/buffer/reserve.go:59-118 | alone: refuses non-positive units and an empty address, succeeds exactly if the AVAILABLE, unexpired rows of the slot add up to enough, and claims of those the shortest expiry-ordered prefix that covers the request |
| EnergyBuffer.Buffer.Reconcile | energybroker/internal/buffer/verify.go:121-162 | of the AVAILABLE and RESERVED rows near expiry, exactly those the chain answers short for become EXPIRED |
| EnergyBuffer.ExpireKeeps | energybroker/internal/buffer/queries.go:167-180 | the correction has no status guard: an expired row keeps its allocation, and a claimed row waits |
| Sweep.PaidAndSettledOnce | dispatcher/internal/dispatch/batch.go:136-174 | with one fixed result per batch and order, if no two runs of a batch overlap, an order is paid by one batch at most, stays in it, and is settled only by it, with its timestamp |
| Sweep.NeverLost | dispatcher/internal/dispatch/batchstore.go:86-237 | every enqueued order is QUEUED or in exactly one batch, which pays it, with its recipient and amount |
| Sweep.ResumptionIsClean | dispatcher/internal/dispatch/batch.go:136-174 | however often settling a batch is stopped and started again, its runs overlapping or not, a run that gets to the end reaches the queue, ledger and dispatch_state of one clean run, requeue times apart |
| Sweep.StuckOrderBlocks | dispatcher/internal/dispatch/batch.go:146-171 | an order without a result, or refused by the ledger or by dispatch_state, stops every run of its batch for good before the orders listed after it, which never change |
| Sweep.RefusedOrderBlocks | dispatcher/internal/dispatch/batch.go:155-166 | so an order the ledger has decided elsewhere stops all later orders of its batch |
| Sweep.OverlappingRunsPayTwice | dispatcher/internal/dispatch/batchstore.go:219-237 | a run from the empty store in which two runs of one batch overlap, and an order is taken out of its next batch, cut again and paid by two |
| Sweep.AnotherTimestampIsRefused | dispatcher/internal/dispatch/batch.go:161-166 | an order already settled can be passed again exactly with the same timestamp; with another, no run ever gets to the orders after it |
| Sweep.SweepStore.Enqueue | dispatcher/internal/dispatch/batchstore.go:86-120 | a second enqueue of an order changes nothing |
| Sweep.SweepStore.CutBatch | dispatcher/internal/dispatch/batch.go:79-117 | nothing until the window is full or old enough; then one batch of exactly the listed orders, which stays cut even if its energy cannot be reserved |
| Sweep.CutKeeps | dispatcher/internal/dispatch/batchstore.go:145-181 | the rows named are all batched with the new batch, keeping every sound property |
| Sweep.SettledOnce | dispatcher/internal/dispatch/batch.go:136-174 | over every run: an order the ledger has settled stays settled by that one batch, which paid it, with its timestamp |
| Sweep.PaidTwiceIff | dispatcher/internal/dispatch/batchstore.go:219-237 | over every run, settlement runs overlapping as they may: an order is paid by two batches exactly if a run of a batch that failed to pay it requeued it out of a later batch that paid it, and it was then cut again |
| Sweep.SweepStore.HandlePartialSettlement | dispatcher/internal/dispatch/batch.go:136-174 | in order of id, up to the first order that cannot be completed or for which a call fails: those before it are handled, paid ones counted as settled and the others as requeued, and those after it untouched; it gets through exactly if there is none, and then the whole batch is handled |
| Ingestion.WindowMoves | depositwatcher/internal/chain/ingestion.go:136-161 | storing a block and pruning leaves exactly the last `window` heights above the start, without uint64 wrap-around |
| Ingestion.GuardIsNeeded | depositwatcher/internal/chain/ingestion.go:151-161 | without the guard the threshold would wrap and delete everything |
| Ingestion.UnbrokenUnlessReported | depositwatcher/internal/chain/ingestion.go:166-181 | the stored window is an unbroken parent-hash chain exactly if no reorg was reported in it |
| Ingestion.SeenBlocks.ProcessOneBlock | depositwatcher/internal/chain/ingestion.go:109-164 | block, check, cursor and pruning together or not at all, the window and the reports staying exact |
| Ingestion.SeenBlocks.RunIngestionTick | depositwatcher/internal/chain/ingestion.go:81-103 | goes block by block to the tip, or stops at the first that fails, never skipping one |
| Base58.DecodingKeeps | depositwatcher/internal/addresses/bip32.go:148-174 | the value is preserved, and each leading '1' becomes one leading zero byte, exactly |
| Base58.DecodeThenEncode | depositwatcher/internal/addresses/bip32.go:148-174 | encoding the decoded bytes gives the string back |
| Base58.DecodingIsInjective | depositwatcher/internal/addresses/bip32.go:148-174 | no two base58 strings decode alike |
| Base58.EncodeThenDecode | depositwatcher/internal/addresses/bip32.go:148-174 | every byte sequence is the decoding of a base58 string |
| Base58.AlphabetIsDigit | depositwatcher/internal/addresses/bip32.go:135-146 | each alphabet character stands for its own place and no other |
| Base58.Base58Decode | depositwatcher/internal/addresses/bip32.go:152-174 | fails exactly on the first character outside the alphabet; otherwise the bytes |
| Base58.Base58CheckDecode | depositwatcher/internal/addresses/bip32.go:181-197 | the payload exactly when the four bytes after it start its double hash |
| Money.ParsedMeans | depositwatcher/internal/money/money.go:69-122 | a string is accepted exactly if some decimal of the grammar, with at most six places and in range, is spelled so, and is worth exactly its value times a million |
| Money.ReadingIsUnique | depositwatcher/internal/money/money.go:78-115 | no string can be read as two decimals |
| Money.FormattedMeans | depositwatcher/internal/money/money.go:136-158 | six places, no needless zeros, the exact amount, for every int64 |
| Money.RoundTrip | depositwatcher/internal/money/money.go:69-158 | parsing what was printed gives every int64 back except -2^63, which is refused |
| Money.ParseDecimal | depositwatcher/internal/money/money.go:78-122 | computes that reading |
| Money.Format | depositwatcher/internal/money/money.go:143-158 | computes that spelling |
| Money.RescalingTruncates | depositwatcher/internal/money/money.go:34-67 | accepts exactly non-negative amounts fine enough and below 2^63 units, cutting off and never rounding |

## Left out

- HTTP servers and clients, authentication, metrics, storefronts, migrations, `cmd/` wiring and environment parsing.
- The ledger's own code: its answers are modelled as its order's state and its keys allow. An entry replays with the same key and contents while its order is in the state the entry led to; other contents, and transitions the state does not allow, are refused.
- Cryptography, key derivation, ABI and protobuf encoding: SHA-256 is a constructor (so injective) where it identifies a transaction, and a parameter in `Base58CheckDecode`; `parseXpub` and `ckdPub` are not modelled.
- Provider health counters, and the two-provider header cache: `LogsAt` is the agreement round over sorted logs.
- The stale-pending alert, the once-only log line of a post-final reorg, and DISAGREEMENT notes: observability without effect on state.
- The operator's cursor override (`SetCursorState`), and clock jumps: heights and times are inputs.
- Tracker.Tracker.CheckFinality: Go's maps share candidate pointers; the model keeps candidates by value, which no method here can tell apart.
- Watcher.Watcher.ScanRange: the threshold of the chain pool and that of the asynchronous driver, separate settings in the source, are one number in the model.
- Leases.LeaseStore.LeaseFromPool: the INSERT and the UPDATE of last_leased_at that follows are one step; the second decides only which wallet goes first later.
- Leases.LeaseStore.Retire: its two statements are one step here; LeaseRuns.CutOffRetirementMisattributes shows what is lost.
- Leases.LeaseStore.Assign: it is the call alone, so no lease statement of it loses a race; in LeaseRuns they may. Leases on addresses that are no pool wallet, created before the pool existed, `ProvisionWallet` without an order, and the quote's times are not modelled.
- Attempts.BroadcastOnce: a chain call that answers with an error although the chain accepted has no step of its own; it is the acceptance followed by an undone transaction, which leaves the same rows.
- Attempts.Dispatcher.Broadcast: the contract is for a caller that never has to wait for a lock; waiting is in the machine.
- Dispatch.Desk.ConfirmFinality: the version-conflict retry and halt back-off inside `settleOrder` are one ledger call with the last answer; the staleness alert is left out.
- Dispatch.Desk.ReconcileFailedDispatches: the reversal and the transition of `ReportDispatchFailure` are one step, the reversal being idempotent on its own.
- `EnterDispatching`, slot selection, energy reservation before dispatch, and the orchestrator's in-memory cache of unsigned transactions.
- `BroadcastBatch`, which its own comment exempts from exactly-once broadcast under concurrency.
- EnergyBuffer.Buffer.Reconcile: the one UPDATE is modelled as corrections one row at a time; the alert and the last-reconciled time are left out.
- `VerifyOnChain`'s tolerance, replenishment, vendor routing, prices and reservations.
- Sweep.SweepStore.CutBatch: a failure between the batch's INSERT and its rows' UPDATE rolls both back, so they are one step; the rows are those listed, no other cut running in between.
- Sweep.ResumptionIsClean: requeue times are left out of the comparison.
- The money packages of the other services, which repeat this parser and printer.
