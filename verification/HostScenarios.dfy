/**
 Runs that exist: requests, from an empty database, that reach the states the
 other theorems speak about.
 */
module HostScenarios {
  import opened Wrappers
  import opened Identity
  import opened HostRecords
  import opened HostCommits
  import opened HostReplies
  import opened LeaseHandlers
  import opened JournalHandlers
  import opened RuntimeHandlers
  import opened HostInvariants
  import opened HostRuns
  import opened HostEvents
  import AuthorityProofs
  import AuthorityTheorems
  import HandlerConditions
  import HandlerProofs
  import HostReplays
  import JournalTheorems
  import RuntimeTheorems
  import ReceiptBounds

  /** An undisturbed request with the capability it needs; every identifier it draws is `id`. */
  function Plain(request: Request, id: Id): Event {
    var required := RequiredCapability(request);
    Event(if required.Some? then required.value else BOOTSTRAP, request, Draws(id, id, id, id, id), NoFault, None)
  }

  lemma PlainSteps(db: Database, request: Request, id: Id)
    ensures EventOutcome(db, Plain(request, id)) == Admitted(db, request, Draws(id, id, id, id, id), NoFault)
    ensures Admitted(db, request, Draws(id, id, id, id, id), NoFault).action.Send? ==>
      EventSteps(db, Plain(request, id)) == Admitted(db, request, Draws(id, id, id, id, id), NoFault).steps
  {
  }

  /** A request that is answered after one commit moves the run by that commit. */
  lemma Commits(events: seq<Event>, request: Request, id: Id, step: Step)
    requires Admitted(RunState(events), request, Draws(id, id, id, id, id), NoFault).action.Send?
    requires Admitted(RunState(events), request, Draws(id, id, id, id, id), NoFault).steps == [step]
    ensures RunState(events + [Plain(request, id)]) == Apply(RunState(events), step)
    ensures RunSteps(events + [Plain(request, id)]) == RunSteps(events) + [step]
  {
    PlainSteps(RunState(events), request, id);
    RunExtended(events, Plain(request, id));
    RunsOne(RunState(events), step);
  }

  lemma CommitsAcquire(events: seq<Event>, boot: BootDocument, fence: FenceDocument, leaseId: Id)
    requires AcquireOutcome(RunState(events).authority, boot, fence, leaseId).action.Send?
    requires AcquireOutcome(RunState(events).authority, boot, fence, leaseId).steps == [AcquireLease(boot, fence, leaseId)]
    ensures var more := events + [Plain(LeaseAcquireRequest(boot, fence), leaseId)];
      && RunState(more) == Apply(RunState(events), AcquireLease(boot, fence, leaseId))
      && RunSteps(more) == RunSteps(events) + [AcquireLease(boot, fence, leaseId)]
  {
    Commits(events, LeaseAcquireRequest(boot, fence), leaseId, AcquireLease(boot, fence, leaseId));
  }

  lemma CommitsIntent(events: seq<Event>, doc: LeaseDocument, operation: Operation, id: Id, step: Step)
    requires IntentOutcome(RunState(events), doc, operation).action.Send?
    requires IntentOutcome(RunState(events), doc, operation).steps == [step]
    ensures RunState(events + [Plain(OperationIntentRequest(doc, operation), id)]) == Apply(RunState(events), step)
    ensures RunSteps(events + [Plain(OperationIntentRequest(doc, operation), id)]) == RunSteps(events) + [step]
  {
    Commits(events, OperationIntentRequest(doc, operation), id, step);
  }

  lemma CommitsDispatch(events: seq<Event>, doc: LeaseDocument, operation: OperationRef, id: Id, step: Step)
    requires DispatchOutcome(RunState(events), doc, operation, id, NoFault).action.Send?
    requires DispatchOutcome(RunState(events), doc, operation, id, NoFault).steps == [step]
    ensures RunState(events + [Plain(OperationDispatchRequest(doc, operation), id)]) == Apply(RunState(events), step)
    ensures RunSteps(events + [Plain(OperationDispatchRequest(doc, operation), id)]) == RunSteps(events) + [step]
  {
    Commits(events, OperationDispatchRequest(doc, operation), id, step);
  }

  lemma CommitsRuntime(events: seq<Event>, request: RuntimeRequest, id: Id, step: Step)
    requires RuntimeOutcome(RunState(events), request, id).action.Send?
    requires RuntimeOutcome(RunState(events), request, id).steps == [step]
    ensures RunState(events + [Plain(RuntimeV3(request), id)]) == Apply(RunState(events), step)
  {
    Commits(events, RuntimeV3(request), id, step);
  }

  lemma CommitsTwo(events: seq<Event>, request: Request, id: Id, first: Step, second: Step)
    requires Admitted(RunState(events), request, Draws(id, id, id, id, id), NoFault).action.Send?
    requires Admitted(RunState(events), request, Draws(id, id, id, id, id), NoFault).steps == [first] + [second]
    ensures RunState(events + [Plain(request, id)]) == Apply(Apply(RunState(events), first), second)
  {
    PlainSteps(RunState(events), request, id);
    RunExtended(events, Plain(request, id));
    RunsOne(RunState(events), first);
    RunsThen(RunState(events), [first], second);
  }

  lemma CommitsRuntimeTwo(events: seq<Event>, request: RuntimeRequest, id: Id, first: Step, second: Step)
    requires RuntimeOutcome(RunState(events), request, id).action.Send?
    requires RuntimeOutcome(RunState(events), request, id).steps == [first] + [second]
    ensures RunState(events + [Plain(RuntimeV3(request), id)]) == Apply(Apply(RunState(events), first), second)
  {
    CommitsTwo(events, RuntimeV3(request), id, first, second);
  }

  // ----- the handshake -----

  const NOBODY := Id("nobody")
  const TTL := 5
  const RENEWAL := 1

  lemma EmptyStart()
    ensures RunState([]) == EmptyDatabase
  {
    RunsOne(EmptyDatabase, Reopen);
    var db := Apply(EmptyDatabase, Reopen);
    assert db.journal.operations == map[] && db.journal.queue == map[];
    assert db.runtime.operations == map[] && db.runtime.queue == {};
  }

  /** What the tables hold besides the authority. */
  predicate Blank(db: Database) { db.journal == EmptyDatabase.journal && db.runtime == EmptyDatabase.runtime }

  lemma BlankStays(db: Database, step: Step)
    requires Blank(db) && (RotatesAuthority(step) || step.ReadyFence?)
    ensures Blank(Apply(db, step))
  {
    var next := Apply(db, step);
    assert next.journal.operations == map[] && next.journal.queue == map[];
    assert next.runtime.operations == map[] && next.runtime.queue == {};
  }

  lemma Booted() returns (events: seq<Event>, boot: BootDocument, fence: FenceDocument)
    ensures var db := RunState(events);
      && Blank(db) && db.authority.clock == 0 && db.authority.history == map[] && db.authority.lease.None?
      && db.authority.fence == Some(FenceRow(boot.holder, 1, fence.fenceId, 1, FENCE_REQUIRED, 0, TTL, RENEWAL))
      && boot.authorityGeneration == 1 && fence == FenceDocument(fence.fenceId, boot.holder, 1, 1)
  {
    var request := BootstrapRequest(NOBODY, NOBODY, NOBODY, TTL, RENEWAL);
    var holder := Holder(NOBODY, NOBODY, NOBODY, NOBODY);
    EmptyStart();
    Commits([], request, NOBODY, Bootstrap(holder, NOBODY, TTL, RENEWAL));
    BlankStays(EmptyDatabase, Bootstrap(holder, NOBODY, TTL, RENEWAL));
    events := [] + [Plain(request, NOBODY)];
    boot, fence := BootDocument(holder, 1), FenceDocument(NOBODY, holder, 1, 1);
  }

  /** The fence row after the fence was opened, with its counter at the given epoch. */
  function OpenFence(boot: BootDocument, fence: FenceDocument, epoch: int): Option<FenceRow> {
    Some(FenceRow(boot.holder, boot.authorityGeneration, fence.fenceId, boot.authorityGeneration, READY, epoch, TTL, RENEWAL))
  }

  ghost predicate Fenced(a: Authority, boot: BootDocument, fence: FenceDocument, epoch: int) {
    && a.clock == 0 && a.fence == OpenFence(boot, fence, epoch) && boot.authorityGeneration == 1
    && fence == FenceDocument(fence.fenceId, boot.holder, 1, 1)
  }

  lemma Opened() returns (events: seq<Event>, boot: BootDocument, fence: FenceDocument, epoch: int)
    ensures Blank(RunState(events)) && Fenced(RunState(events).authority, boot, fence, epoch) && 0 <= epoch < MAX_INTEGER - 1
    ensures RunState(events).authority.history == map[]
  {
    var before;
    before, boot, fence := Booted();
    Commits(before, HostFenceRequest(boot), NOBODY, ReadyFence);
    BlankStays(RunState(before), ReadyFence);
    events, epoch := before + [Plain(HostFenceRequest(boot), NOBODY)], 0;
  }

  /** The lease document of the live lease. */
  function Document(a: Authority): LeaseDocument
    requires a.lease.Some? && a.fence.Some?
  {
    GrantDocument(a.lease.value.grant, FIXTURE_TOKEN, a.fence.value.authorityGeneration)
  }

  /** An open fence with a live lease whose document is accepted. */
  ghost predicate Leased(a: Authority, boot: BootDocument, fence: FenceDocument, epoch: int) {
    Fenced(a, boot, fence, epoch) && LeaseLive(a) && HandlerConditions.Presents(a, Document(a))
  }

  lemma AcquisitionGranted(a: Authority, boot: BootDocument, fence: FenceDocument, leaseId: Id, epoch: int)
    requires AuthorityInv(a) && Fenced(a, boot, fence, epoch) && 0 <= epoch < MAX_INTEGER && leaseId !in a.history
    ensures AcquireOutcome(a, boot, fence, leaseId).steps == [AcquireLease(boot, fence, leaseId)]
    ensures AcquireOutcome(a, boot, fence, leaseId).action.Send?
  {
    HandlerConditions.AcquiresIff(a, boot, fence, leaseId);
  }

  lemma Acquired(a: Authority, boot: BootDocument, fence: FenceDocument, leaseId: Id, epoch: int)
    requires AuthorityInv(a) && Fenced(a, boot, fence, epoch)
    ensures var b := AcquireAuthority(a, boot, fence, leaseId);
      && Leased(b, boot, fence, epoch + 1)
      && b.history.Keys == a.history.Keys + {leaseId}
  {
    AuthorityProofs.CounterIsMaxEpoch(a);
    assert ArchiveLease(a) == a;
  }

  lemma AcquiredState(db: Database, boot: BootDocument, fence: FenceDocument, leaseId: Id, epoch: int)
    requires AuthorityInv(db.authority) && Fenced(db.authority, boot, fence, epoch)
    ensures Leased(Apply(db, AcquireLease(boot, fence, leaseId)).authority, boot, fence, epoch + 1)
    ensures Apply(db, AcquireLease(boot, fence, leaseId)).authority.history.Keys == db.authority.history.Keys + {leaseId}
  {
    Acquired(db.authority, boot, fence, leaseId, epoch);
  }

  /** From an open fence a lease is acquired under any fresh identifier, and its document is accepted. */
  lemma Acquires(events: seq<Event>, boot: BootDocument, fence: FenceDocument, leaseId: Id, epoch: int)
      returns (more: seq<Event>)
    requires Fenced(RunState(events).authority, boot, fence, epoch) && 0 <= epoch < MAX_INTEGER
    requires leaseId !in RunState(events).authority.history
    ensures RunState(more) == Apply(RunState(events), AcquireLease(boot, fence, leaseId))
    ensures Leased(RunState(more).authority, boot, fence, epoch + 1)
    ensures RunState(more).authority.history.Keys == RunState(events).authority.history.Keys + {leaseId}
    ensures RunSteps(more) == RunSteps(events) + [AcquireLease(boot, fence, leaseId)]
  {
    EveryRunIsSafe(events);
    AcquisitionGranted(RunState(events).authority, boot, fence, leaseId, epoch);
    AcquiredState(RunState(events), boot, fence, leaseId, epoch);
    CommitsAcquire(events, boot, fence, leaseId);
    more := events + [Plain(LeaseAcquireRequest(boot, fence), leaseId)];
  }

  lemma FirstGrant(before: seq<Event>, boot: BootDocument, fence: FenceDocument, leaseId: Id, epoch: int)
      returns (events: seq<Event>)
    requires Blank(RunState(before)) && Fenced(RunState(before).authority, boot, fence, epoch) && 0 <= epoch < MAX_INTEGER
    requires RunState(before).authority.history == map[]
    ensures Blank(RunState(events)) && Leased(RunState(events).authority, boot, fence, epoch + 1)
    ensures RunState(events).authority.history.Keys <= {leaseId}
  {
    events := Acquires(before, boot, fence, leaseId, epoch);
    BlankStays(RunState(before), AcquireLease(boot, fence, leaseId));
  }

  /** A run to a first live lease, with nothing else on record. */
  lemma Granted() returns (events: seq<Event>, boot: BootDocument, fence: FenceDocument, epoch: int)
    ensures Blank(RunState(events)) && Leased(RunState(events).authority, boot, fence, epoch) && 0 <= epoch < MAX_INTEGER
    ensures RunState(events).authority.history.Keys <= {NOBODY}
  {
    var before, counter;
    before, boot, fence, counter := Opened();
    events := FirstGrant(before, boot, fence, NOBODY, counter);
    epoch := counter + 1;
  }

  // ----- sideband operations -----

  function ContextOf(doc: LeaseDocument): OriginalContext {
    OriginalContext(doc.holder, doc.authorityGeneration, doc.leaseId, doc.epoch)
  }

  function NewOperation(id: Id, doc: LeaseDocument): Operation {
    Operation(id, Supplied(""), ContextOf(doc), Boundary(NOBODY, 0, Supplied("")), "")
  }

  lemma IntentCommit(db: Database, doc: LeaseDocument, operation: Operation)
    requires IntentOutcome(db, doc, operation).steps != []
    ensures db.authority.fence.Some? && IntentOutcome(db, doc, operation).action.Send?
    ensures IntentOutcome(db, doc, operation).steps
         == [RecordIntent(operation.id, IntentRow(operation, doc, db.authority.fence.value.fenceId))]
  {
  }

  lemma SubmitCommit(db: Database, boot: BootDocument, fence: FenceDocument, epoch: int, id: Id) returns (step: Step)
    requires AuthorityInv(db.authority) && Leased(db.authority, boot, fence, epoch) && id !in db.journal.operations
    ensures step.RecordIntent? && step.id == id && step.intent.state.INTENT_RECORDED?
    ensures step.intent.context == ContextOf(Document(db.authority))
    ensures var outcome := IntentOutcome(db, Document(db.authority), NewOperation(id, Document(db.authority)));
      outcome.steps == [step] && outcome.action.Send?
  {
    var doc := Document(db.authority);
    HandlerConditions.RecordsIff(db, doc, NewOperation(id, doc));
    IntentCommit(db, doc, NewOperation(id, doc));
    step := RecordIntent(id, IntentRow(NewOperation(id, doc), doc, db.authority.fence.value.fenceId));
  }

  /** A new operation can be submitted under a live lease. */
  lemma Submits(events: seq<Event>, boot: BootDocument, fence: FenceDocument, epoch: int, id: Id)
      returns (more: seq<Event>, step: Step)
    requires Leased(RunState(events).authority, boot, fence, epoch) && id !in RunState(events).journal.operations
    ensures RunState(more) == Apply(RunState(events), step) && RunSteps(more) == RunSteps(events) + [step]
    ensures step.RecordIntent? && step.id == id && step.intent.state.INTENT_RECORDED?
    ensures step.intent.context == ContextOf(Document(RunState(events).authority))
  {
    EveryRunIsSafe(events);
    step := SubmitCommit(RunState(events), boot, fence, epoch, id);
    var doc := Document(RunState(events).authority);
    CommitsIntent(events, doc, NewOperation(id, doc), id, step);
    more := events + [Plain(OperationIntentRequest(doc, NewOperation(id, doc)), id)];
  }

  lemma DispatchSent(db: Database, doc: LeaseDocument, operation: OperationRef, ticketId: Id)
    ensures DispatchOutcome(db, doc, operation, ticketId, NoFault).action.Send?
  {
  }

  function Reference(id: Id, op: OperationRow): OperationRef { OperationRef(id, op.payload, op.context) }

  lemma DispatchesOne(db: Database, boot: BootDocument, fence: FenceDocument, epoch: int, id: Id) returns (step: Step)
    requires AuthorityInv(db.authority) && JournalInv(db.journal, db.authority)
    requires Leased(db.authority, boot, fence, epoch) && id in db.journal.operations
    requires db.journal.operations[id].state.INTENT_RECORDED? && ValidContext(db.journal.operations[id].context)
    requires |db.journal.receipts| < MAX_RECEIPTS
    ensures step.AdmitOperation? && step.id == id
    ensures var outcome := DispatchOutcome(db, Document(db.authority), Reference(id, db.journal.operations[id]), id, NoFault);
      outcome.steps == [step] && outcome.action.Send?
  {
    var doc, operation := Document(db.authority), Reference(id, db.journal.operations[id]);
    HandlerConditions.DispatchesIff(db, doc, operation, id);
    ReceiptBounds.DispatchCommit(db, doc, operation, id, NoFault);
    DispatchSent(db, doc, operation, id);
    step := DispatchOutcome(db, doc, operation, id, NoFault).steps[0];
  }

  /** A recorded intent can be dispatched under a live lease, whichever lease it was submitted under. */
  lemma Dispatches(events: seq<Event>, boot: BootDocument, fence: FenceDocument, epoch: int, id: Id)
      returns (more: seq<Event>, step: Step)
    requires Leased(RunState(events).authority, boot, fence, epoch) && id in RunState(events).journal.operations
    requires RunState(events).journal.operations[id].state.INTENT_RECORDED?
    requires ValidContext(RunState(events).journal.operations[id].context)
    requires |RunState(events).journal.receipts| < MAX_RECEIPTS
    ensures RunState(more) == Apply(RunState(events), step) && RunSteps(more) == RunSteps(events) + [step]
    ensures step.AdmitOperation? && step.id == id
  {
    EveryRunIsSafe(events);
    step := DispatchesOne(RunState(events), boot, fence, epoch, id);
    var doc, operation := Document(RunState(events).authority), Reference(id, RunState(events).journal.operations[id]);
    CommitsDispatch(events, doc, operation, id, step);
    more := events + [Plain(OperationDispatchRequest(doc, operation), id)];
  }

  // ----- any number of receipts -----

  lemma DocumentContext(a: Authority, boot: BootDocument, fence: FenceDocument, epoch: int)
    requires AuthorityInv(a) && Leased(a, boot, fence, epoch)
    ensures ValidContext(ContextOf(Document(a)))
    ensures var g, context := a.lease.value.grant, ContextOf(Document(a));
      g.epoch == context.epoch && g.holder == context.holder
  {
    assert HistoryRowInv(a, a.lease.value.grant.leaseId);
  }

  lemma SubmittedState(db: Database, step: Step)
    requires Enabled(db, step) && step.RecordIntent?
    ensures var next := Apply(db, step);
      && next.authority == db.authority && next.journal.receipts == db.journal.receipts
      && next.journal.operations == db.journal.operations[step.id := step.intent]
    ensures ReceiptBounds.Candidates(Apply(db, step)) >= ReceiptBounds.Candidates(db)
  {
  }

  lemma SubmittedCandidates(db: Database, step: Step)
    requires AuthorityInv(db.authority) && Enabled(db, step) && step.RecordIntent?
    ensures ReceiptBounds.Candidates(Apply(db, step)) == ReceiptBounds.Candidates(db)
  {
    SubmittedState(db, step);
    ReceiptBounds.StepCandidates(db, step);
  }

  /** One more operation waits for its tick, and nothing has a receipt yet. */
  ghost predicate Pending(db: Database, n: nat) {
    && |ReceiptBounds.Candidates(db)| == n && db.journal.receipts == map[]
    && forall id :: id in db.journal.operations ==> |id.text| < n
  }

  lemma DispatchedState(db: Database, step: Step)
    requires Enabled(db, step) && step.AdmitOperation?
    ensures var next := Apply(db, step);
      && next.authority == db.authority && next.journal.receipts == db.journal.receipts
      && next.journal.operations.Keys == db.journal.operations.Keys
  {
  }

  lemma LastEnabled(events: seq<Event>, more: seq<Event>, step: Step)
    requires RunSteps(more) == RunSteps(events) + [step]
    ensures Inv(RunState(events)) && Enabled(RunState(events), step)
  {
    EveryRunIsSafe(events);
    EveryRunIsSafe(more);
    RunsThen(EmptyDatabase, RunSteps(events), step);
  }

  lemma DispatchedPending(db: Database, step: Step, n: nat)
    requires AuthorityInv(db.authority) && JournalInv(db.journal, db.authority) && Enabled(db, step) && step.AdmitOperation?
    requires JournalTheorems.Fits(db, step.id) && |ReceiptBounds.Candidates(db)| == n
    ensures |ReceiptBounds.Candidates(Apply(db, step))| == n + 1
  {
    ReceiptBounds.AdmissionCandidates(db, step);
    ReceiptBounds.WithFittingCount(ReceiptBounds.Candidates(db), step.id, true);
  }

  function Name(n: nat): Id { Id(seq(n, _ => 'x')) }

  lemma OneMorePending(events: seq<Event>, boot: BootDocument, fence: FenceDocument, epoch: int, n: nat)
      returns (more: seq<Event>)
    requires Leased(RunState(events).authority, boot, fence, epoch) && Pending(RunState(events), n)
    ensures Leased(RunState(more).authority, boot, fence, epoch) && Pending(RunState(more), n + 1)
  {
    var submitted, intent := Submits(events, boot, fence, epoch, Name(n));
    LastEnabled(events, submitted, intent);
    SubmittedState(RunState(events), intent);
    SubmittedCandidates(RunState(events), intent);
    DocumentContext(RunState(events).authority, boot, fence, epoch);
    var dispatch;
    more, dispatch := Dispatches(submitted, boot, fence, epoch, Name(n));
    LastEnabled(submitted, more, dispatch);
    DispatchedState(RunState(submitted), dispatch);
    DispatchedPending(RunState(submitted), dispatch, n);
  }

  lemma NothingPending(db: Database)
    requires Blank(db)
    ensures Pending(db, 0)
  {
    assert ReceiptBounds.Candidates(db) == {};
  }

  lemma {:induction false} ManyPending(n: nat)
      returns (events: seq<Event>, boot: BootDocument, fence: FenceDocument, epoch: int)
    ensures Leased(RunState(events).authority, boot, fence, epoch) && Pending(RunState(events), n)
  {
    if n == 0 {
      events, boot, fence, epoch := Granted();
      NothingPending(RunState(events));
    } else {
      events, boot, fence, epoch := ManyPending(n - 1);
      events := OneMorePending(events, boot, fence, epoch, n - 1);
    }
  }

  /** For every number there is a run that leaves exactly that many receipts: 64 is no bound. */
  lemma AnyNumberOfReceipts(n: nat)
    ensures exists events :: |RunState(events).journal.receipts| == n
  {
    var events, boot, fence, epoch := ManyPending(n);
    var more := ReceiptBounds.CandidatesAreReached(events);
    ReceiptBounds.KeysCount(RunState(events + more).journal.receipts);
  }

  // ----- a foreign ticket -----

  const SOMEONE := Id("someone")

  /** Commit `d` dispatches an operation under a lease that does not fit it. */
  ghost predicate ForeignDispatch(steps: seq<Step>, d: int) {
    && 0 <= d < |steps| && steps[d].AdmitOperation?
    && !JournalTheorems.Fits(StateAt(EmptyDatabase, steps, d), steps[d].id)
  }

  lemma LastIsForeign(steps: seq<Step>, step: Step)
    requires step.AdmitOperation? && !JournalTheorems.Fits(ApplyAll(EmptyDatabase, steps), step.id)
    ensures ForeignDispatch(steps + [step], |steps|)
  {
    assert (steps + [step])[..|steps|] == steps;
  }

  ghost predicate Recorded(db: Database, id: Id) {
    && id in db.journal.operations && db.journal.operations[id].state.INTENT_RECORDED?
    && ValidContext(db.journal.operations[id].context) && db.journal.receipts == map[]
  }

  lemma OneIntent() returns (events: seq<Event>, boot: BootDocument, fence: FenceDocument, epoch: int)
    ensures Leased(RunState(events).authority, boot, fence, epoch) && 0 <= epoch < MAX_INTEGER
    ensures Recorded(RunState(events), NOBODY) && RunState(events).authority.history.Keys <= {NOBODY}
  {
    var first, intent;
    first, boot, fence, epoch := Granted();
    events, intent := Submits(first, boot, fence, epoch, NOBODY);
    LastEnabled(first, events, intent);
    SubmittedState(RunState(first), intent);
    DocumentContext(RunState(first).authority, boot, fence, epoch);
  }

  lemma AcquisitionKeepsReceipts(db: Database, boot: BootDocument, fence: FenceDocument, leaseId: Id)
    ensures Apply(db, AcquireLease(boot, fence, leaseId)).journal.receipts == db.journal.receipts
  {
  }

  /** An intent submitted before a second acquisition. */
  lemma Stranded() returns (events: seq<Event>, boot: BootDocument, fence: FenceDocument, epoch: int)
    ensures Leased(RunState(events).authority, boot, fence, epoch) && Recorded(RunState(events), NOBODY)
    ensures !JournalTheorems.Fits(RunState(events), NOBODY)
  {
    var submitted;
    submitted, boot, fence, epoch := OneIntent();
    events := Acquires(submitted, boot, fence, SOMEONE, epoch);
    EveryRunIsSafe(events);
    JournalTheorems.ReacquiringStrandsIntents(RunSteps(submitted), AcquireLease(boot, fence, SOMEONE), NOBODY);
    AcquisitionKeepsReceipts(RunState(submitted), boot, fence, SOMEONE);
    epoch := epoch + 1;
  }

  /** Some run dispatches an operation under a lease that does not fit it. */
  lemma ForeignDispatchHappens()
    ensures exists events, d :: ForeignDispatch(RunSteps(events), d)
  {
    var events, boot, fence, epoch := Stranded();
    var more, dispatch := Dispatches(events, boot, fence, epoch, NOBODY);
    LastIsForeign(RunSteps(events), dispatch);
  }

  // ----- an action begun at the last generation -----

  function LastAction(a: Authority): RuntimeRequest
    requires a.lease.Some?
  {
    RuntimeRequest(DispatchRequest(NOBODY, SyntheticStateId, SyntheticLegalActions[0]), a.lease.value.grant.holder.instance,
                   NOBODY, a.lease.value.grant.leaseId, a.lease.value.grant.epoch, MAX_INTEGER)
  }

  lemma NothingOpen(r: Runtime, request: RuntimeRequest)
    requires r == EmptyDatabase.runtime
    ensures SessionBarrier(r, request, true).None?
  {
    assert UnresolvedOfInstance(r, request.instance) == {} && ActiveSessions(r, request.instance) == {};
  }

  lemma FirstActionAdmitted(r: Runtime, request: RuntimeRequest, s: Session)
    requires r.operations == map[] && r.queue == {} && request.kind.DispatchRequest?
    requires request.generation == s.generation && request.kind.stateId == s.stateId && request.kind.action in s.legalActions
    ensures DispatchRuntime(r, request, s)
         == Respond([AdmitRuntime(AdmittedOperation(s, request.kind.operation, request.kind.action))],
                    Accepted(request.kind.operation, s.observation))
  {
    assert UnresolvedOfSession(r, s.session) == {} && UnresolvedOfInstance(r, s.instance) == {};
  }

  lemma FirstAction(db: Database, request: RuntimeRequest, witnessId: Id)
    requires db.runtime == EmptyDatabase.runtime && request.kind.DispatchRequest?
    requires InRange(request.epoch) && InRange(request.generation) && request.kind.action in SyntheticLegalActions
    requires AuthorityCurrent(db.authority, request.instance, request.leaseId, request.epoch)
    ensures var s := FreshSession(request);
      RuntimeOutcome(db, request, witnessId)
      == Respond([SaveSession(s)] + [AdmitRuntime(AdmittedOperation(s, request.kind.operation, request.kind.action))],
                 Accepted(request.kind.operation, s.observation))
  {
    NothingOpen(db.runtime, request);
    FirstActionAdmitted(Apply(db, SaveSession(FreshSession(request))).runtime, request, FreshSession(request));
  }

  lemma LastActionCurrent(a: Authority)
    requires AuthorityInv(a) && LeaseLive(a)
    ensures InRange(a.lease.value.grant.epoch)
    ensures AuthorityCurrent(a, a.lease.value.grant.holder.instance, a.lease.value.grant.leaseId, a.lease.value.grant.epoch)
  {
    AuthorityTheorems.JoinIsRowCheck(a, a.lease.value.grant.holder.instance, a.lease.value.grant.leaseId, a.lease.value.grant.epoch);
  }

  /** The tables after a first action at the last generation. */
  ghost predicate AtTheEnd(db: Database, s: Session) {
    && LeaseLive(db.authority) && s == FreshSession(LastAction(db.authority)) && db.runtime.sessions == map[NOBODY := s]
    && db.runtime.operations == map[NOBODY := AdmittedOperation(s, NOBODY, SyntheticLegalActions[0])]
  }

  lemma FirstActionState(db: Database, s: Session)
    requires Blank(db) && LeaseLive(db.authority) && s == FreshSession(LastAction(db.authority))
    ensures AtTheEnd(Apply(Apply(db, SaveSession(s)), AdmitRuntime(AdmittedOperation(s, NOBODY, SyntheticLegalActions[0]))), s)
  {
  }

  lemma LastActionAdmitted(db: Database, s: Session)
    requires AuthorityInv(db.authority) && Blank(db) && LeaseLive(db.authority) && s == FreshSession(LastAction(db.authority))
    ensures RuntimeOutcome(db, LastAction(db.authority), NOBODY)
         == Respond([SaveSession(s)] + [AdmitRuntime(AdmittedOperation(s, NOBODY, SyntheticLegalActions[0]))],
                    Accepted(NOBODY, s.observation))
  {
    LastActionCurrent(db.authority);
    FirstAction(db, LastAction(db.authority), NOBODY);
  }

  /** A first request that names the last generation opens a session there and admits its action. */
  lemma AdmittedLast() returns (events: seq<Event>, s: Session)
    ensures AtTheEnd(RunState(events), s)
  {
    var before, boot, fence, epoch := Granted();
    EveryRunIsSafe(before);
    s := FreshSession(LastAction(RunState(before).authority));
    LastActionAdmitted(RunState(before), s);
    CommitsRuntimeTwo(before, LastAction(RunState(before).authority), NOBODY,
               SaveSession(s), AdmitRuntime(AdmittedOperation(s, NOBODY, SyntheticLegalActions[0])));
    FirstActionState(RunState(before), s);
    events := before + [Plain(RuntimeV3(LastAction(RunState(before).authority)), NOBODY)];
  }

  function LastWait(a: Authority): RuntimeRequest
    requires a.lease.Some?
  {
    LastAction(a).(kind := WaitRequest(NOBODY))
  }

  lemma LastWaitBegins(db: Database, s: Session, witnessId: Id)
    requires RuntimeInv(db.runtime) && AuthorityInv(db.authority) && AtTheEnd(db, s)
    ensures RuntimeOutcome(db, LastWait(db.authority), witnessId) == Outcome([BeginRuntime(NOBODY)], Err(Invalid), Send)
  {
    LastActionCurrent(db.authority);
    HostReplays.ServeWait(db, LastWait(db.authority), s, true, witnessId);
    RuntimeTheorems.WaitOutcomes(db, LastWait(db.authority), s, witnessId);
    HandlerProofs.SessionFound(db.runtime, NOBODY);
  }

  lemma BegunIsStuck(db: Database, s: Session)
    requires AtTheEnd(db, s)
    ensures RuntimeTheorems.Stuck(Apply(db, BeginRuntime(NOBODY)).runtime, NOBODY)
  {
  }

  /** Some run begins an action whose session has no next generation. */
  lemma StuckHappens()
    ensures exists events, id :: RuntimeTheorems.Stuck(RunState(events).runtime, id)
  {
    var events, s := AdmittedLast();
    EveryRunIsSafe(events);
    LastWaitBegins(RunState(events), s, NOBODY);
    CommitsRuntime(events, LastWait(RunState(events).authority), NOBODY, BeginRuntime(NOBODY));
    BegunIsStuck(RunState(events), s);
    assert RuntimeTheorems.Stuck(RunState(events + [Plain(RuntimeV3(LastWait(RunState(events).authority)), NOBODY)]).runtime, NOBODY);
  }
}
