# Watchdog verification

A Dafny model of the watchdog's hard parts, with proofs. The main part is the durable recovery host: a
crash-recovery protocol over a transactional store, with fencing and leases, a sideband operation journal whose
effect and receipt are committed separately, and a runtime-v3 journal of sessions and actions. Around it stand
the Windows service command line, an incremental SHA-256, the lifecycle frame codec with its replay window, the
restart budget and backoff, strict base64, and two readers that must not care how their input is split.

`dafny verify dfyconfig.toml` verifies everything.

## How the host is modelled

- `HostRecords` holds the rows: one map per table, one optional row per singleton table. Digests are symbolic
  terms over what was hashed. Identifiers drawn by a handler are parameters of the request.
- `HostCommits` has one `Step` per SQLite transaction or stand-alone statement and its effect on the tables. A
  crash can only fall between two steps. `Reopen` is the recovery transaction of `DurableHost::open`.
- `LeaseHandlers`, `JournalHandlers` and `RuntimeHandlers` specify each request handler: the commits it makes in
  order, its answer, and what the server does with the answer.
- `LeaseMethods`, `JournalMethods`, `RuntimeMethods` and `HostServer` are the handlers statement by statement on a
  `DurableHost` object whose fields are the tables. Each is proved to make exactly the commits and give exactly
  the answer of its specification, from any state at all; only the runtime handlers ask that the key column of a
  row is its key.
- `HostInvariants` states what every durable state satisfies and what each commit's handler has established when
  it commits. `AuthorityProofs`, `JournalProofs`, `RuntimeProofs` and `HostRuns` show that every commit keeps the
  invariant; `HandlerProofs` and `HostEvents` show that every request, with any armed fault and a crash after any
  commit, makes only such commits.
- `AuthorityHistory`, `JournalHistory` and `RuntimeHistory` show what never goes backwards; the `…Theorems` modules
  and `HostReplays` state the results over whole runs.
- `HandlerConditions` says exactly when the handlers succeed. `LeaseAnswers`, `JournalAnswers` and `RuntimeAnswers`
  give, for every request in a safe state, each answer with its exact condition and every table afterwards.
- `ReceiptBounds` bounds the receipts table.
  `HostScenarios` builds runs from an empty database that reach the states the findings below speak of.

## What the proofs turned up

- `dispatch` does not compare an operation's original context with the lease presented. An intent recorded under
  one epoch can be dispatched under a later one (`ForeignDispatchHappens` gives a run), and its ticket then does
  not fit the operation. Such an operation has no effect in any run that contains this dispatch
  (`NoForeignEffect`), and an operation can take effect after its dispatch exactly when the lease fits
  (`EffectPossibleIff`). Before the deadline `tick` answers with a stale-lease error and changes nothing; it does
  not reach the branch that would quarantine the operation (`ForeignTicketIsRefused`).
- The receipts table is not bounded by 64 rows, although the host reports 64 as its capacity: `dispatch` counts
  only the receipts already written. Any number of receipts can be reached (`AnyNumberOfReceipts`). What counts is
  the receipts plus the dispatched operations that a tick would still execute: the table stays within a limit
  until the next dispatch if and only if these do (`WithinIff`, `DispatchStaysWithinIff`), and a caller that
  dispatches only while they are fewer than the limit never exceeds it (`GuardedStaysWithin`).
- Waiting on an operation of a session at the last representable generation commits the begin of its execution
  and then fails; `StuckHappens` gives a run. The operation is never settled. It stays executing until its session
  is stopped, its lease is found stale or the authority changes, and is UNKNOWN from then on (`StuckThroughout`,
  `OnlyStaleOrStopped`).
- A settled action does not answer every later wait with its result: after a restart the answer is `stale_lease`,
  after a stop `episode_stopped`. `SettledAnswerIsStable` gives the exact condition and `SettledWait` every answer. A
  wait that names an unknown session can even open that session.
- An unrevoked lease never expires by the clock: the clock only moves with a renewal, which moves the deadline
  along with it. The expiry test in `runtime_authority_current` is implied by the row being unrevoked
  (`LiveLeaseIsReady`).
- A timestamp has a two-digit hour field, so a deadline of one hundred hours or more prints as a text the
  validators refuse. That, and nothing else, bounds the clock (`ClockMovesIff`).
- A restart that the budget refuses is not remembered. So a budget can have room again after as many records as its
  maximum within one window (`RefusedRecordsAreForgotten`), unless no earlier restart was recent when they began
  (`BudgetFills`). `AdmittedIff` and `CountIsRecent` give the exact count in every case.
- Reconciling with `reobserve` never resolves anything, because every witness is host-generated (`ReconcilesIff`).
  For runtime operations the states REJECTED and RECONCILED and the answers `prestate_changed`, `queue_missing` and
  `operation_rejected` are unreachable from an empty database (`InstancesAreBounded`, `NoAlarmThroughout`).

## Model

| member | source | states |
|---|---|---|
| HostTheorems.OneEffectPerOperation | crates/fault-fixture/src/journal.rs:355-467 | over any run, with crashes after any commit, each operation has exactly one effect commit if its effects row exists and none otherwise; likewise receipts; never more receipts than effects |
| HostTheorems.EveryEffectIsAuthorised | crates/fault-fixture/src/journal.rs:374-388 | every effect commit of any run belongs to an earlier intent and dispatch of the same operation; from the intent to the effect one grant is current, with no restart, bootstrap, acquisition or revocation in between; it is the lease the operation's original context names (lease id, epoch, holder), under the READY fence of its ticket; and the effect comes strictly before dispatch-time clock plus time to live |
| HostTheorems.NoForeignEffect | crates/fault-fixture/src/journal.rs:241-273 | an operation dispatched under a lease of another epoch, boot or incarnation has no effect and no receipt in the run, and stays dispatched or uncertain |
| HostTheorems.EveryChainIsGapFree | crates/fault-fixture/src/runtime_store.rs:346-515 | after any run each session was created by some commit, its settled actions consumed every generation from that commit's to the current exactly, no two alike, turn index is one plus settled end-turns, and each operation is settled by at most one commit |
| HostTheorems.NothingIsForgotten | crates/fault-fixture/src/db.rs:437-501 | between any two points of a run, restarts included, clocks, generations, epochs, histories, journal rows, effects, receipts, sessions and runtime rows only move forward |
| HostTheorems.OnlyLeaseIdsCollide | crates/fault-fixture/src/journal.rs:419-457 | no request hits a table constraint, except a lease acquisition that passes every check and draws a lease id already in history; both directions |
| HostTheorems.LiveLeaseIsReady | crates/fault-fixture/src/runtime.rs:422-452 | after every commit of every run a live lease stands under its own READY fence, and the two-table join with its deadline test equals a check of the lease row |
| HostTheorems.DeadlinesAreExact | crates/fault-fixture/src/lease.rs:443-455 | after every commit of every run the deadline is clock plus ttl and issue tick plus ttl plus renewals times interval, nothing saturates, counter and history agree with the lease row and only that row can be unrevoked |
| HostTheorems.TablesAgreeThroughout | crates/fault-fixture/src/lib.rs:358-399 | after every commit of every run: stored witness equals the effects row, receipt implies effect, SETTLED implies receipt, RECONCILED implies effect, dispatched implies queued |
| HostTheorems.InstancesAreBounded | crates/fault-fixture/src/runtime.rs:502-528 | after every commit of every run: at most one unresolved operation and one unstopped session per instance, at most 64 rows, proof exactly when settled, none rejected or reconciled |
| HostTheorems.NoAlarmThroughout | crates/fault-fixture/src/runtime_store.rs:366-430 | in no reachable state is any request answered with a changed pre-state, a missing queue row or a rejected operation |
| HostTheorems.StuckThroughout | crates/fault-fixture/src/runtime_store.rs:396-470 | an operation begun at the last generation is unchanged until the authority changes or its own or its session's mark is committed, and UNKNOWN ever after; it is never settled |
| HostEvents.EveryRunIsSafe | crates/fault-fixture/src/server.rs:28-58 | any sequence of requests, armed faults and crashes from an empty database commits only what its guards established and ends in a state that satisfies the invariant |
| HostEvents.EveryStateIsSafe | crates/fault-fixture/src/db.rs:437-501 | the invariant holds after every single commit of a run, which is all a crash can expose |
| HostEvents.InjectedCrashIsCut | crates/fault-fixture/src/journal.rs:96-110 | a fault that kills the process leaves exactly what a crash at some commit of the unfaulted request leaves |
| HostEvents.FaultIsCut | crates/fault-fixture/src/journal.rs:389-471 | the commits made under an armed fault are a prefix of those made without it |
| HostEvents.ForbiddenUnlessPermitted | crates/fault-fixture/src/lib.rs:561-566 | a sideband request is served exactly under the capability that is for it and is forbidden under any other |
| HostEvents.CapabilityConfines | crates/fault-fixture/src/lib.rs:107-135 | whatever is requested, each capability can only lead to its own kinds of commit |
| HostRuns.StepKeeps | crates/fault-fixture/src/db.rs:300-430 | every enabled commit keeps the whole-database invariant |
| HostCommits.MaxEpoch | crates/fault-fixture/src/lease.rs:68-75 | the largest epoch in the lease history, zero when it is empty |
| FixtureClock.TimestampInjective | crates/fault-fixture/src/lib.rs:527-533 | different ticks print as different timestamps |
| FixtureClock.TimestampValidBelowLimit | crates/fault-fixture/src/lib.rs:507-525 | a printed tick validates as a timestamp exactly below one hundred hours |
| FixtureClock.TimestampReads | crates/fault-fixture/src/lib.rs:527-533 | a printed tick reads as its hours, minutes and seconds on the fixed day |
| Identity.Least | crates/fault-fixture/src/runtime_store.rs:164-198 | the first identifier of a query result in text order |
| AuthorityTheorems.AcceptedUntilChanged | crates/fault-fixture/src/lease.rs:598-683 | an accepted lease document is accepted later if and only if no restart, bootstrap, acquisition, renewal or revocation was committed since |
| AuthorityTheorems.OneLeaseBetween | crates/fault-fixture/src/lease.rs:296-413 | two points of a run with the same epoch, live at the second: one grant, only aged, and nothing in between replaced or revoked it |
| AuthorityTheorems.EpochsIncrease | crates/fault-fixture/src/lease.rs:296-307 | any two acquisitions of a run get strictly increasing epochs, whatever lies between |
| AuthorityTheorems.GenerationsIncrease | crates/fault-fixture/src/lease.rs:40-58 | any two bootstraps of a run get strictly increasing authority generations |
| AuthorityTheorems.AuthorityNeedsTheWholeSequence | crates/fault-fixture/src/db.rs:493-500 | after a restart no request has authority until bootstrap, host fence and acquisition have been committed in that order |
| AuthorityTheorems.HandshakeGrants | crates/fault-fixture/src/lease.rs:258-430 | conversely, from any safe state with counters left, those three commits are possible and grant authority |
| AuthorityHistory.RunGrows | crates/fault-fixture/src/lease.rs:318-413 | over any run the clock, generation and counter do not decrease and each history row only ages, and is final once revoked |
| AuthorityProofs.CounterIsMaxEpoch | crates/fault-fixture/src/db.rs:449-455 | taking the maximum of counter and history changes nothing in a safe state |
| JournalTheorems.EffectsAreUnique | crates/fault-fixture/src/journal.rs:410-436 | over any run of commits the number of effect commits of an operation is one or zero, as its effects row exists or not |
| JournalTheorems.EffectBelongsToItsDispatch | crates/fault-fixture/src/journal.rs:285-311 | the intent, dispatch, lease, fence and deadline statement over arbitrary runs of commits |
| JournalTheorems.ForeignNeverTakesEffect | crates/fault-fixture/src/validate.rs:723-742 | over arbitrary runs of commits, a dispatch under a lease that does not fit rules out the effect |
| JournalTheorems.EffectPossibleIff | crates/fault-fixture/src/journal.rs:374-388 | a run that ends with a dispatch can be continued to the operation's effect if and only if the lease fits the operation |
| JournalTheorems.DispatchedOnce | crates/fault-fixture/src/journal.rs:241-252 | no run dispatches an operation twice |
| JournalTheorems.SubmittedEarlier | crates/fault-fixture/src/journal.rs:114-152 | every operation on record was submitted under the current epoch or an earlier one |
| JournalTheorems.TickExecutesIff | crates/fault-fixture/src/journal.rs:370-388 | a tick of a dispatched operation settles it if and only if the deadline is ahead, the lease is live and the operation was submitted under it |
| JournalTheorems.ForeignTicketIsRefused | crates/fault-fixture/src/validate.rs:723-742 | before its deadline a dispatched operation is refused as stale, unchanged, exactly when its context is not the live lease's |
| JournalTheorems.TicketFitsIff | crates/fault-fixture/src/journal.rs:241-273 | a dispatch admits whatever lease is presented; the ticket fits the operation exactly when that lease has the operation's epoch, boot and incarnation |
| JournalTheorems.ReacquiringStrandsIntents | crates/fault-fixture/src/lease.rs:353-364 | in any run an acquisition leaves every recorded intent unchanged and moves the epoch past it |
| JournalTheorems.ReconcilesIff | crates/fault-fixture/src/journal.rs:529-597 | given a current fence and a matching reference, reconciliation resolves exactly the uncertain operations whose effect is on record, by receipt lookup, and never fails |
| JournalTheorems.ReopenLeavesNothingExecutable | crates/fault-fixture/src/db.rs:477-491 | right after open no queued operation is dispatched and no tick records an effect |
| JournalHistory.RunGrows | crates/fault-fixture/src/journal.rs:546-597 | over any run states only move forward, an uncertain operation without a witness stays so, resolved rows never change, effect and receipt rows are never changed or removed |
| JournalHistory.StepGrows | crates/fault-fixture/src/lib.rs:252-273 | one commit moves an operation at most one place along its life cycle |
| RuntimeTheorems.GapFreeChain | crates/fault-fixture/src/runtime_store.rs:418-509 | generations from creation to current are exactly the pre-generations of the settled operations, no two alike |
| RuntimeTheorems.BirthIsCreation | crates/fault-fixture/src/runtime_store.rs:653-681 | the chain starts at the generation the session was created with, for ever |
| RuntimeTheorems.ChainStartsAtCreation | crates/fault-fixture/src/runtime_store.rs:653-681 | over any run of commits the session has a creating commit and its chain starts at that commit's generation |
| RuntimeTheorems.SettlementsAreUnique | crates/fault-fixture/src/runtime_store.rs:475-485 | over any run a runtime operation has one settlement commit if settled and none otherwise |
| RuntimeTheorems.UncertaintyBars | crates/fault-fixture/src/runtime.rs:255-300 | an uncertain operation stays exactly as it is and its instance never again gets an operation or a session |
| RuntimeTheorems.ReopenEmptiesQueue | crates/fault-fixture/src/db.rs:465-476 | a restart leaves the runtime queue empty |
| RuntimeTheorems.WaitOutcomes | crates/fault-fixture/src/runtime_store.rs:340-515 | waiting on an admitted operation has three outcomes: uncertain without authority, begun and failed at the last generation, settled otherwise |
| RuntimeTheorems.StuckForEver | crates/fault-fixture/src/runtime_store.rs:396-470 | over any run of commits an operation begun at the last generation is given up or unchanged, never settled |
| RuntimeTheorems.OnlyStaleOrStopped | crates/fault-fixture/src/runtime.rs:335-366 | a request marks such an operation only when its lease is stale, and its session only to stop it |
| RuntimeHistory.RunGrows | crates/fault-fixture/src/runtime_store.rs:300-337 | over any run settled and uncertain rows and stopped sessions are final and birth generations never change |
| HostReplays.BootDocumentOpensFence | crates/fault-fixture/src/lease.rs:147-175 | the boot document of a bootstrap opens its own fence and the answer is the fence document handed out with it |
| HostReplays.FenceDocumentsAcquire | crates/fault-fixture/src/lease.rs:534-554 | the documents of an opened fence acquire a lease under any fresh id while an epoch is left |
| HostReplays.AcquireAnswersWithItsLease | crates/fault-fixture/src/lease.rs:414-429 | the document an acquisition answers with describes the lease it leaves behind |
| HostReplays.RenewAnswersWithItsLease | crates/fault-fixture/src/lease.rs:482-490 | the document a renewal answers with describes the renewed lease |
| HostReplays.CurrentDocumentAccepted | crates/fault-fixture/src/lease.rs:598-683 | the document of the live lease is accepted exactly while its deadline is below one hundred hours |
| HostReplays.IntentRepeats | crates/fault-fixture/src/journal.rs:153-177 | recording the same intent again commits nothing and answers the same |
| HostReplays.DispatchRepeats | crates/fault-fixture/src/journal.rs:241-252 | dispatching again commits nothing and answers the same |
| HostReplays.ResolvedIsLeftAlone | crates/fault-fixture/src/journal.rs:357-362 | after any run a resolved operation is unchanged and no dispatch, tick or reconciliation touches it again |
| HostReplays.SettledAnswerIsStable | crates/fault-fixture/src/runtime.rs:335-402 | after any run a settled action's row is unchanged, and a wait is answered with its result, committing nothing, if and only if authority is current and the request names the action's unstopped session with its instance, lease and epoch |
| HostReplays.SettledWait | crates/fault-fixture/src/runtime.rs:255-402 | every answer to a wait on a settled action: invalid, stale lease, stopped episode, the result, or for an unknown session a refusal or a new session |
| HandlerConditions.AcceptedIff | crates/fault-fixture/src/lease.rs:598-683 | a lease document is accepted if and only if it is the live lease's own document and its deadline is below one hundred hours |
| HandlerConditions.RenewsIff | crates/fault-fixture/src/lease.rs:432-491 | a renewal succeeds if and only if that document and the next sequence number are presented, and moves the clock by one interval |
| HandlerConditions.ClockMovesIff | crates/fault-fixture/src/lease.rs:443-455 | some renewal can move the clock if and only if a live lease's deadline is below one hundred hours |
| HandlerConditions.AcquiresIff | crates/fault-fixture/src/lease.rs:258-317 | an acquisition succeeds if and only if the open fence's own documents are presented, the drawn lease id is fresh and an epoch is left |
| HandlerConditions.RecordsIff | crates/fault-fixture/src/journal.rs:114-202 | an intent is recorded if and only if the live lease is presented, the operation is new, its context is that lease and it is within bounds |
| HandlerConditions.DispatchesIff | crates/fault-fixture/src/journal.rs:204-311 | a dispatch is admitted if and only if the live lease is presented, the operation is a recorded intent named with its digest and context, and fewer than 64 receipts exist |
| HandlerConditions.AdmitsIff | crates/fault-fixture/src/runtime.rs:454-546 | an action sent to a known session is admitted if and only if authority is current, the request names the unstopped session at its state and generation, the action is new and legal, its instance has nothing unresolved and fewer than 64 rows exist |
| LeaseAnswers.LeaseRefusals | crates/fault-fixture/src/lease.rs:598-683 | the reason a lease document is refused, each with its exact condition |
| LeaseAnswers.FenceRefusals | crates/fault-fixture/src/lease.rs:556-596 | a fence document is accepted exactly when it is the open fence's own; each refusal with its condition |
| LeaseAnswers.RotationAbandons | crates/fault-fixture/src/db.rs:456-491 | restart, bootstrap and acquisition make exactly the dispatched operations and the actions in flight uncertain, drop them from the queues and keep every other row |
| LeaseAnswers.ReopenLeaves | crates/fault-fixture/src/db.rs:437-501 | after open the lease is revoked in both tables, the fence is closed, the counter kept, and nothing is in flight |
| LeaseAnswers.BootstrapsIff | crates/fault-fixture/src/lease.rs:22-80 | a bootstrap succeeds if and only if the policy is in range and a generation is left; its documents |
| LeaseAnswers.BootstrapLeaves | crates/fault-fixture/src/lease.rs:80-176 | every table after a bootstrap |
| LeaseAnswers.HostFenceAnswers | crates/fault-fixture/src/lease.rs:178-255 | a fence opens if and only if the boot document on record is presented and no restart closed it; each refusal with its condition |
| LeaseAnswers.AcquireRefusals | crates/fault-fixture/src/lease.rs:258-317 | why an acquisition under a fresh lease id is refused |
| LeaseAnswers.AcquireLeaves | crates/fault-fixture/src/lease.rs:318-430 | every table after an acquisition: next epoch, the fence's holder and policy, from the clock of the moment; the old lease revoked |
| LeaseAnswers.RenewRefusals | crates/fault-fixture/src/lease.rs:432-460 | why a renewal is refused |
| LeaseAnswers.RenewLeaves | crates/fault-fixture/src/lease.rs:443-491 | clock, lease row and history row one interval on and nothing else changed; the answered document |
| LeaseAnswers.RevokesIff | crates/fault-fixture/src/lease.rs:493-531 | a revocation succeeds if and only if the live lease's document is presented |
| LeaseAnswers.RevokeLeaves | crates/fault-fixture/src/lease.rs:493-531 | the lease revoked in both tables and nothing else changed; no document is accepted any more |
| LeaseAnswers.RevokedGrantsNothing | crates/fault-fixture/src/runtime.rs:422-452 | with its lease revoked a host accepts no document and grants no runtime authority |
| JournalAnswers.IntentAnswers | crates/fault-fixture/src/journal.rs:153-177 | under the presented lease: CONFLICT if and only if the id stands for an operation with another digest, context, action or boundary; DUPLICATE if and only if it is on record and settled; INTENT_RECORDED otherwise |
| JournalAnswers.IntentLeaves | crates/fault-fixture/src/journal.rs:178-202 | a new id gets exactly the submitted operation; a known one changes nothing |
| JournalAnswers.IntentRefusals | crates/fault-fixture/src/journal.rs:114-152 | every refusal of an intent with its exact condition, and that it changes nothing |
| JournalAnswers.DispatchAnswers | crates/fault-fixture/src/journal.rs:204-255 | conflict if and only if the reference contradicts the record; otherwise the answer for each state, and room exactly below 64 receipts |
| JournalAnswers.DispatchLeaves | crates/fault-fixture/src/journal.rs:256-311 | an admitted dispatch moves its row and queues a ticket of the live lease and fence with its deadline; any other changes nothing |
| JournalAnswers.DispatchRefusals | crates/fault-fixture/src/journal.rs:204-240 | a dispatch without the live lease's document or a context in range is refused and changes nothing |
| JournalAnswers.DispatchFaults | crates/fault-fixture/src/journal.rs:256-311 | a fault before the admission prevents it, one after leaves it, both kill the process; no other fires |
| JournalAnswers.TickExpires | crates/fault-fixture/src/journal.rs:374-381 | at or past the deadline the operation becomes UNKNOWN with AUTHORITY_ROTATED, leaves the queue without effect, every other row is unchanged, and the answer is LEASE_EXPIRED |
| JournalAnswers.TickAfterRevocation | crates/fault-fixture/src/journal.rs:382-389 | the same for an operation of the current lease once that is revoked |
| JournalAnswers.TickSettles | crates/fault-fixture/src/journal.rs:389-472 | in time and under its own live lease the operation is settled: witness, effect, receipt, row and queue afterwards |
| JournalAnswers.TickOfOthers | crates/fault-fixture/src/journal.rs:314-370 | a tick of anything not dispatched: its answer and every table, by the state of the row |
| JournalAnswers.TickFaults | crates/fault-fixture/src/journal.rs:389-471 | what each fault point leaves committed of a tick that settles; no other tick is touched by a fault |
| JournalAnswers.ReconcileAnswers | crates/fault-fixture/src/journal.rs:506-606 | every answer to a reconciliation under the current fence with its exact condition |
| JournalAnswers.ReconcileLeaves | crates/fault-fixture/src/journal.rs:575-606 | only RECONCILED changes anything, and then only its own row |
| RuntimeAnswers.ReadAnswers | crates/fault-fixture/src/runtime.rs:369-402 | a read answers with the session's observation, whoever asks and whether or not it is stopped |
| RuntimeAnswers.StaleDispatch | crates/fault-fixture/src/runtime.rs:302-320 | without authority a dispatch is rejected, or makes its own work in flight uncertain |
| RuntimeAnswers.StaleWait | crates/fault-fixture/src/runtime.rs:335-366 | without authority a wait or reconciliation answers stale_lease and makes exactly its own work in flight uncertain |
| RuntimeAnswers.DispatchOutside | crates/fault-fixture/src/runtime.rs:369-402 | a dispatch that does not name the session, or names a stopped one, is told so |
| RuntimeAnswers.DispatchOfKnown | crates/fault-fixture/src/runtime.rs:467-487 | an operation on record answers operation_conflict if and only if it belongs to another session or names another action, otherwise its state |
| RuntimeAnswers.DispatchOfNew | crates/fault-fixture/src/runtime.rs:488-546 | every rejection of a new action with its condition, in order, and otherwise its admission |
| RuntimeAnswers.WaitOutside | crates/fault-fixture/src/runtime.rs:369-402 | a wait that does not name the session, or names a stopped one, is told so |
| RuntimeAnswers.WaitAnswers | crates/fault-fixture/src/runtime.rs:548-583 | a wait on anything not admitted tells what is on record and commits nothing |
| RuntimeAnswers.WaitSettles | crates/fault-fixture/src/runtime_store.rs:430-515 | the settled row, its result and proof, the session one generation and perhaps one turn on, and nothing else changed |
| RuntimeAnswers.ObserveAnswers | crates/fault-fixture/src/runtime.rs:594-609 | observing for recovery answers the session that is named in full, with or without authority |
| RuntimeAnswers.ReconcileAnswers | crates/fault-fixture/src/runtime.rs:610-658 | every answer to a reconciliation under authority, and that it commits nothing |
| RuntimeAnswers.StopAnswers | crates/fault-fixture/src/runtime.rs:335-395 | a release or stop is served if and only if it has authority and names the session in full |
| RuntimeAnswers.ReleaseLeaves | crates/fault-fixture/src/runtime.rs:659-681 | a served release revokes the lease in both tables, so no document is accepted and nothing has runtime authority; the session is stopped and its work is neither in flight nor queued |
| RuntimeAnswers.StopLeaves | crates/fault-fixture/src/runtime.rs:676-681 | a served stop leaves authority and journal unchanged, the session stopped and its work neither in flight nor queued |
| RuntimeAnswers.FirstRequest | crates/fault-fixture/src/runtime.rs:255-300 | an unknown session: refused without authority, barred by an unresolved operation or an open session of its instance, otherwise created |
| RuntimeAnswers.FirstSessionRow | crates/fault-fixture/src/runtime_store.rs:653-681 | the created session: the request's identity and generation, the state it names, first turn |
| ReceiptBounds.NoNewCandidates | crates/fault-fixture/src/journal.rs:253-311 | without another dispatch no request, fault or crash adds to the operations that have or can get a receipt |
| ReceiptBounds.CandidatesAreReached | crates/fault-fixture/src/journal.rs:389-457 | ticking each of them gives every one its receipt |
| ReceiptBounds.WithinIff | crates/fault-fixture/src/journal.rs:253-255 | without another dispatch the receipts table stays within a limit if and only if the number of receipts and executable operations does |
| ReceiptBounds.DispatchStaysWithinIff | crates/fault-fixture/src/journal.rs:253-311 | after an admitted dispatch the table stays within a limit until the next one if and only if that number before it, plus one when the lease fits, does |
| ReceiptBounds.GuardedStaysWithin | crates/fault-fixture/src/journal.rs:253-255 | if every dispatch of a run is requested while that number is below a limit, the table never exceeds the limit |
| HostScenarios.AnyNumberOfReceipts | crates/fault-fixture/src/lib.rs:137-150 | for every number some run from an empty database leaves exactly that many receipts |
| HostScenarios.ForeignDispatchHappens | crates/fault-fixture/src/journal.rs:204-311 | some run from an empty database dispatches an operation under a lease that does not fit it |
| HostScenarios.StuckHappens | crates/fault-fixture/src/runtime_store.rs:396-470 | some run from an empty database begins an operation at the last generation |
| HandlerProofs.TickRuns | crates/fault-fixture/src/journal.rs:314-472 | every commit of a tick, under any fault, is enabled where it is made |
| HandlerProofs.RuntimeRuns | crates/fault-fixture/src/runtime.rs:244-420 | every commit of a runtime-v3 request is enabled where it is made |
| HandlerProofs.AcquireRuns | crates/fault-fixture/src/lease.rs:281-413 | an acquisition commits only with a READY matching fence, a fresh lease id and an epoch left |
| HostStore.FaultController.At | crates/fault-fixture/src/journal.rs:96-110 | a fault fires once, at its own point, with the action of that point |
| HostStore.DurableHost.Open | crates/fault-fixture/src/db.rs:437-501 | the statements of the recovery transaction together are the recovery step |
| LeaseMethods.Bootstrap | crates/fault-fixture/src/lease.rs:22-176 | from any tables the statements amount to one commit: old lease revoked, work in flight uncertain and dequeued, next generation under a fresh fence with the counter kept; refused for a bad policy or exhausted counters |
| LeaseMethods.HostFence | crates/fault-fixture/src/lease.rs:178-255 | opens exactly the fence of the presented boot, never after a restart |
| LeaseMethods.Acquire | crates/fault-fixture/src/lease.rs:258-430 | one commit: old lease archived and revoked, work in flight uncertain, new lease at the next epoch in both tables; a key conflict rolls everything back |
| LeaseMethods.Renew | crates/fault-fixture/src/lease.rs:432-491 | clock, lease row and history row move together for the next sequence number, or nothing does |
| LeaseMethods.Revoke | crates/fault-fixture/src/lease.rs:493-531 | revokes the presented live lease in both tables in one commit |
| JournalMethods.Intent | crates/fault-fixture/src/journal.rs:114-202 | the statements of an intent amount to its specification, whose answers and tables `IntentAnswers` and `IntentLeaves` state |
| JournalMethods.Dispatch | crates/fault-fixture/src/journal.rs:204-311 | queue row and state change in one commit, with a fault point before and after it, only from a recorded intent and with room for receipts |
| JournalMethods.Tick | crates/fault-fixture/src/journal.rs:314-472 | effect, receipt, settlement and dequeue as four commits in that order with the fault points between them; the tables and answers of every case are in `TickExpires`, `TickAfterRevocation`, `TickSettles` and `TickOfOthers` |
| JournalMethods.Quarantine | crates/fault-fixture/src/lib.rs:252-274 | marks and dequeues in one commit, or changes nothing |
| JournalMethods.Reconcile | crates/fault-fixture/src/journal.rs:506-606 | at most one commit, resolving an operation whose witness agrees with the effects and receipts tables and the strategy |
| RuntimeMethods.HandleRuntime | crates/fault-fixture/src/runtime.rs:244-420 | a request reaches its session or opens one past every barrier; without authority it can only mark its own work uncertain |
| RuntimeMethods.DispatchAction | crates/fault-fixture/src/runtime.rs:454-546 | at most one commit, admitting and queueing the action past repetition, staleness, legality, both barriers and capacity, in that order |
| RuntimeMethods.DrainOperation | crates/fault-fixture/src/runtime_store.rs:340-515 | begin and settlement as two commits, the settlement moving operation, session and queue together; without authority, pre-state or queue row the operation becomes uncertain instead |
| RuntimeMethods.MarkForContext | crates/fault-fixture/src/runtime_store.rs:542-577 | marks and dequeues in one commit exactly when the row is in flight under the given context |
| RuntimeMethods.Recover | crates/fault-fixture/src/runtime.rs:585-698 | the statements of a recovery amount to its specification, whose tables afterwards `ReleaseLeaves`, `StopLeaves` and `ReconcileAnswers` state |
| RuntimeMethods.StopSession | crates/fault-fixture/src/runtime.rs:676-681 | three commits: abandon, dequeue, persist the stopped session |
| HostServer.Handle | crates/fault-fixture/src/lib.rs:107-135 | each request kind reaches its handler, a wrong capability none |
| HostServer.ServeAll | crates/fault-fixture/src/server.rs:28-58 | serving requests and restarting after injected crashes leaves exactly the specified state, which is safe |
| ServiceCommand.QuoteWindows | crates/platform-windows/src/service_command.rs:57-87 | the quoting loop computes the quoting rules |
| ServiceCommand.ParseWindowsArguments | crates/platform-windows/src/service_command.rs:149-210 | the parsing loops compute the splitting rules and terminate on every line |
| ServiceCommand.SplitUndoesQuote | crates/platform-windows/src/service_command.rs:57-210 | splitting the space-joined quoted form of any argument list gives the list back |
| ServiceCommand.SplitsAtSeparators | crates/platform-windows/src/service_command.rs:154-158 | each of the five separators separates: a line cut at one outside quotes splits into the arguments before and after it |
| ServiceCommand.WordIsOneArgument | crates/platform-windows/src/service_command.rs:163-198 | nothing else separates: a word without quotes and separators is one argument, backslashes included |
| ServiceCommand.QuotedParts | crates/platform-windows/src/service_command.rs:174-190 | a quoted part is taken as it stands and a doubled quote in it stands for one |
| ServiceCommand.OpenQuoteIsRefused | crates/platform-windows/src/service_command.rs:201-205 | a quote that is never closed is refused |
| ServiceCommand.PrintedPlainIff | crates/platform-windows/src/service_command.rs:57-62 | a value is printed as it is if and only if it is not empty and has neither whitespace nor quotes |
| ServiceCommand.AcceptsExactlyItsOutput | crates/platform-windows/src/service_command.rs:100-147 | the strict parser accepts exactly the rendered form of bounded, quote-free, NUL-free commands within the length limit, and returns the command rendered |
| ServiceCommand.ParseServiceCommandLine | crates/platform-windows/src/service_command.rs:100-147 | the strict parser, step by step |
| Sha256Hasher.HashChunks | crates/platform-windows/src/native_integrity.rs:327-398 | for any way of cutting a message into updates the digest is the standard's hash of the whole message |
| Sha256Hasher.Hasher.constructor | crates/platform-windows/src/native_integrity.rs:335-351 | a new hasher holds the empty message |
| Sha256Hasher.Hasher.Update | crates/platform-windows/src/native_integrity.rs:353-378 | an update appends to the hashed message, with fewer than 64 bytes buffered afterwards |
| Sha256Hasher.Hasher.Finalize | crates/platform-windows/src/native_integrity.rs:380-398 | the digest is the fold of the compression function over the padded message |
| Sha256Hasher.Hasher.CompressNext | crates/platform-windows/src/native_integrity.rs:400-449 | one compression extends the fold by one block |
| Sha256Hasher.PadIs | crates/platform-windows/src/native_integrity.rs:381-391 | padding ends in the last partial block or in one more, and gives the standard's padded message |
| LifecycleCodec.FramesRoundTrip | crates/platform-windows/src/contract.rs:142-200 | a frame encodes to some bytes if and only if those bytes decode to that frame |
| LifecycleCodec.RequestsRoundTrip | crates/platform-windows/src/contract.rs:248-329 | the same for requests |
| LifecycleCodec.FrameFits | crates/platform-windows/src/contract.rs:150-163 | a valid frame is at most 390 bytes and always encodes |
| LifecycleCodec.RequestFits | crates/platform-windows/src/contract.rs:283-288 | a valid request is at most 269 bytes and always encodes |
| LifecycleCodec.FrameIsLaidOut | crates/platform-windows/src/contract.rs:142-163 | magic, version, capability code, epoch, sequence, nonce and request of an encoded frame, by offset |
| LifecycleCodec.RequestIsLaidOut | crates/platform-windows/src/contract.rs:248-289 | kind, component code, identities and count of an encoded request, by offset |
| LifecycleCodec.EncodesIff | crates/platform-windows/src/contract.rs:126-163 | a frame is encoded if and only if nonce, epoch, sequence, capability and identities are in order; which refusal otherwise |
| LifecycleCodec.MismatchIff | crates/platform-windows/src/contract.rs:166-200 | decoding reports a mismatch if and only if the bytes are those of a frame with the capability of another request |
| LifecycleCodec.ControlIff | crates/platform-windows/src/contract.rs:626-637 | text holds a control character if and only if some byte begins one |
| LifecycleCodec.NumberOfBytes | crates/platform-windows/src/contract.rs:710-723 | little-endian reading undoes little-endian writing |
| LifecycleCursor.DecodeFramePayload | crates/platform-windows/src/contract.rs:166-200 | the cursor decoder computes the frame grammar |
| LifecycleCursor.DecodeRequestPayload | crates/platform-windows/src/contract.rs:297-329 | the cursor decoder computes the request grammar |
| LifecycleCursor.EncodeFramePayload | crates/platform-windows/src/contract.rs:142-163 | the appending encoder computes the frame's bytes |
| LifecycleCursor.EncodeRequestPayload | crates/platform-windows/src/contract.rs:248-289 | the appending encoder computes the request's bytes |
| LifecycleCursor.Cursor.NextText | crates/platform-windows/src/contract.rs:725-740 | a length-prefixed, well-formed, control-free identity, or nothing |
| ReplayWindow.AcceptedFramesIncrease | crates/platform-windows/src/native_named_pipe.rs:455-469 | over any run of calls accepted frames strictly increase in epoch, then sequence, across reconnects |
| ReplayWindow.ResponsesAnswerTheirConnection | crates/platform-windows/src/native_named_pipe.rs:332-370 | every response carries epoch, nonce, sequence and capability of the last frame accepted on its connection |
| ReplayWindow.ExchangesAreWithThePeer | crates/platform-windows/src/native_named_pipe.rs:284-310 | over any run every accepted frame and every response passes on an authenticated connection to the peer whose executable and session the policy names |
| ReplayWindow.ReadsIff | crates/platform-windows/src/native_named_pipe.rs:313-322 | a read accepts if and only if the pipe is ready, the peer is itself and the frame is inside the window; it remembers the frame, and a refusal changes nothing |
| ReplayWindow.WritesIff | crates/platform-windows/src/native_named_pipe.rs:332-352 | a response goes out if and only if it is valid and answers the last accepted frame |
| ReplayWindow.ConfiguresIff | crates/platform-windows/src/native_named_pipe.rs:174-203 | a policy is taken if and only if nobody is authenticated and its epoch is later, and opens a new window |
| ReplayWindow.AuthenticatesIff | crates/platform-windows/src/native_named_pipe.rs:284-310 | authentication succeeds if and only if the peer is the one the policy names |
| ReplayWindow.AuthenticatesAsIff | crates/platform-windows/src/native_named_pipe.rs:258-282 | a given policy may not contradict a configured one |
| ReplayWindow.ConnectsIff | crates/platform-windows/src/native_named_pipe.rs:209-252 | a connection is taken if and only if the pipe is free and a peer is captured; what every other outcome leaves |
| NamedPipeServer.PipeServer.ConfigureReplayPolicy | crates/platform-windows/src/native_named_pipe.rs:174-203 | the policy changes only before authentication and only to a later epoch |
| NamedPipeServer.PipeServer.ReadFrame | crates/platform-windows/src/native_named_pipe.rs:313-322 | a read accepts one decoded frame inside the window or changes nothing |
| NamedPipeServer.PipeServer.WriteFrame | crates/platform-windows/src/native_named_pipe.rs:332-352 | a response goes out only inside the current frame |
| NamedPipeServer.PipeServer.AcceptClient | crates/platform-windows/src/native_named_pipe.rs:209-252 | every outcome of connecting, with the reset that follows a failure |
| NamedPipeServer.PipeServer.AuthenticatePeer | crates/platform-windows/src/native_named_pipe.rs:258-310 | authentication against the configured session and executable |
| NamedPipeServer.PipeServer.ResetListenerState | crates/platform-windows/src/native_named_pipe.rs:485-508 | a reset keeps the sequence window; a failed one changes nothing |
| RestartPolicy.KeptIsTheWindow | crates/watchdog/src/policy.rs:122-138 | after any calls, backward clocks included, the kept events are the window filter of all admitted restarts, at most the maximum |
| RestartPolicy.RestartsAreSpaced | crates/watchdog/src/policy.rs:131-138 | a restart admitted maximum places after another comes more than one window later |
| RestartPolicy.AdmittedIff | crates/watchdog/src/policy.rs:131-138 | over any calls a record is admitted, at the clamped clock, if and only if fewer than the maximum of earlier admitted restarts lie in its window; an observation admits nothing |
| RestartPolicy.CountIsRecent | crates/watchdog/src/policy.rs:122-127 | the kept count is the number of admitted restarts in the window of the clamped clock |
| RestartPolicy.BudgetFills | crates/watchdog/src/policy.rs:131-143 | from a moment without recent restarts and within one window the count is the number of records, up to the maximum: exhausted exactly then |
| RestartPolicy.RefusedRecordsAreForgotten | crates/watchdog/src/policy.rs:131-138 | with earlier restarts in the window, a budget of two still has room after two more records two milliseconds apart |
| RestartPolicy.RestartBudget.Record | crates/watchdog/src/policy.rs:131-138 | a record is admitted if and only if fewer than the maximum of admitted restarts are recent, and the count follows the specification |
| RestartPolicy.RestartBudget.Observe | crates/watchdog/src/policy.rs:122-127 | observing follows the budget's specification |
| RestartPolicy.RestartBudget.AdmitsRestart | crates/watchdog/src/policy.rs:141-143 | another restart is admitted exactly while the window holds fewer than the maximum |
| RestartPolicy.BackoffBounds | crates/watchdog/src/policy.rs:356-376 | the delay is within a quarter of the capped exponential and never past the cap, for every sample |
| RestartPolicy.BackoffIsSpread | crates/watchdog/src/policy.rs:356-376 | the sample moves the delay over the whole quarter either way, one millisecond per step, up to the cap |
| RestartPolicy.BackoffGrows | crates/watchdog/src/policy.rs:356-376 | while doubling fits under the cap each delay is strictly longer than the one before, for all samples |
| Base64.DecodeUndoesEncode | crates/fault-fixture/src/encoding.rs:75-114 | decoding inverts the padded encoder of RFC 4648 on every non-empty byte string |
| Base64.AcceptedIsCanonical | crates/fault-fixture/src/encoding.rs:89-107 | any accepted text is, after respelling two characters, the encoding of its result |
| Base64.DecodesAlikeIff | crates/fault-fixture/src/encoding.rs:75-125 | two accepted texts decode alike exactly when they normalise alike |
| Base64.DecodeStrict | crates/fault-fixture/src/encoding.rs:75-114 | the chunk loop computes the decoder |
| Base64.ValueOf | crates/fault-fixture/src/encoding.rs:116-125 | a character's value has six bits |
| Base64.AlphabetIs | crates/fault-fixture/src/encoding.rs:116-125 | which characters have a value, and which |
| Base64.GroupCarriesBits | crates/fault-fixture/src/encoding.rs:87-110 | four characters carry the 24 bits of three bytes, most significant first |
| HealthExchange.Exchange | crates/watchdog/src/gateway_health_http.rs:38-77 | the answer is a function of the byte stream, however reads are split |
| HealthExchange.AcceptsExactly | crates/watchdog/src/gateway_health_http.rs:38-77 | success, with this status, tag and body, if and only if the first header block ends within 16 KiB, announces exactly these (see `HeadersIff`), and the body follows to the end of the stream |
| HealthExchange.HeadersIff | crates/watchdog/src/gateway_health_http.rs:104-176 | a header block yields a status, length and tag if and only if it is ASCII, starts with that status line, its lines are distinct fields and these announce unencoded JSON on a closing connection, that length and a tag of 64 characters |
| HealthExchange.StatusIff | crates/watchdog/src/gateway_health_http.rs:110-124 | a status line is accepted, with the number it shows, if and only if it is the version, 200 or 503 and a printable reason |
| HealthExchange.FieldIff | crates/watchdog/src/gateway_health_http.rs:133-143 | a line is a field if and only if it is a name, a colon and a printable value with spaces around it |
| HealthExchange.LinesIff | crates/watchdog/src/gateway_health_http.rs:108-109 | splitting into lines undoes joining with line ends |
| HealthExchange.LowerIff | crates/watchdog/src/gateway_health_http.rs:144-146 | names fold alike if and only if they agree up to case |
| HealthExchange.UnavailableIff | crates/watchdog/src/gateway_health_http.rs:115-119 | the gateway is reported unavailable if and only if the status is another one |
| HealthExchange.AuthenticationIff | crates/watchdog/src/gateway_health_http.rs:170-175 | an authentication refusal means exactly a missing or misshapen tag on an otherwise acceptable block |
| HealthExchange.OutOfBoundsIff | crates/watchdog/src/gateway_health_http.rs:130-169 | a block is out of bounds if and only if it has a 33rd field or misstates its length |
| HealthExchange.FramingOfStream | crates/watchdog/src/gateway_health_http.rs:38-77 | the refusals of a stream without a block end, with a late one, or with another body length |
| HealthExchange.FieldsAcceptedIff | crates/watchdog/src/gateway_health_http.rs:126-147 | header lines are accepted exactly when all are fields, no name repeats in any case and there are at most 32; the map holds exactly those fields |
| HealthExchange.LengthIsCanonical | crates/watchdog/src/gateway_health_http.rs:165-169 | a length is accepted only in canonical decimal spelling within the limit |
| HealthExchange.Headers | crates/watchdog/src/gateway_health_http.rs:104-176 | the header loop computes the header grammar |
| StagedHash.ReadBounded | crates/watchdog/src/release_staged_hash.rs:46-71 | the whole file, or a refusal exactly when it exceeds the limit or the limit overflows, however reads are split |
| StagedHash.DigestBounded | crates/watchdog/src/release_staged_hash.rs:75-108 | hash and length of the whole file, or a refusal exactly when it exceeds the limit or the limit overflows |
| StagedHash.HexDigits | crates/watchdog/src/release_staged_hash.rs:18-28 | two lower-case hexadecimal digits per byte, the high one first |

## Left out

- SQLite itself, PRAGMAs, column migrations, the sidecar lock and path checks of `db.rs`; only tables, keys and the recovery transaction are modelled.
- JSON text, duplicate-member parsing, schema field lists and the shape validators of `wire.rs`, `validate.rs` and `runtime_validate.rs`; documents are typed values, and numeric ranges, policies, tokens and timestamps are checked.
- The digest comparison inside `validate_v3_action`, the 4096-byte bound on context and boundary text, and size bounds on stored JSON.
- The read-only handlers `lookup` and `stats`, and the runtime reply fields that only echo the request.
- Observation details of the runtime session other than state id, generation and turn index, which nothing changes.
- Sockets, HTTP serving, deadlines, retries and sleeping; requests are serialised as the store mutex serialises them.
- The shared fault controller of one server process: each request carries the fault armed for it, which allows more runs than the server has.
- HostEvents.RequiredCapability: roles and authentication proofs of frames are not modelled.
- HostServer.ServeAll: serves requests without external crashes; crashes after any commit are part of `EveryRunIsSafe`.
- Strength of SHA-256, HMAC and UUID randomness; drawn identifiers are arbitrary, and only a repeated lease id is visible.
- ServiceCommand.QuoteWindows: the saturation of the backslash count at the largest machine word is not modelled, because no string is that long.
- Sha256Hasher.Hasher.Update: inputs of 2^61 bytes or more wrap the 64-bit bit count, as in the code; the standard defines no hash for them.
- StagedHash.DigestBounded: uses this project's hasher in place of the external SHA-256 library, and a file that does not change while it is read.
- NamedPipeServer.PipeServer.AcceptClient: polling, process handles and raw pipe calls are inputs; executable paths are compared in normalised form.
- HealthExchange.Exchange: connection failures, interrupted calls and deadlines are not modelled.
- RestartPolicy.BackoffBounds: the sample taken from the component's digest is an arbitrary number.
- Win32 launch, job, service, token and descriptor code, Linux descriptor duplication, release staging, build sets, configuration, command line and qualification: kernel calls, file system work or single-branch checks.
- The supervisor's decision table in `policy.rs`: it would only add easy members.
