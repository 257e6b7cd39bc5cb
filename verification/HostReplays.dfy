/**
 Documents and repeated requests: what one handler hands out, the next accepts,
 and a request that was already served changes nothing when it comes again.
 */
module HostReplays {
  import opened Identity
  import opened FixtureClock
  import opened HostRecords
  import opened HostCommits
  import opened HostReplies
  import opened LeaseHandlers
  import opened JournalHandlers
  import opened RuntimeHandlers
  import opened HostInvariants
  import opened HostRuns
  import AuthorityProofs
  import HandlerProofs
  import JournalHistory
  import RuntimeHistory

  // ----- documents -----

  /** The boot document of a bootstrap opens its own fence, and the answer is the fence document handed out with it. */
  lemma BootDocumentOpensFence(db: Database, deployment: Id, instance: Id, incarnation: Id,
                               ttl: int, renewal: int, bootId: Id, fenceId: Id)
    requires AuthorityInv(db.authority)
    requires BootstrapOutcome(db.authority, deployment, instance, incarnation, ttl, renewal, bootId, fenceId).result.Ok?
    ensures var outcome := BootstrapOutcome(db.authority, deployment, instance, incarnation, ttl, renewal, bootId, fenceId);
      && |outcome.steps| == 1 && outcome.result.value.BootReply?
      && HostFenceOutcome(Apply(db, outcome.steps[0]).authority, outcome.result.value.boot)
         == Say([ReadyFence], FenceReply(outcome.result.value.fence))
  {
  }

  /** With the fence open, the same two documents acquire a lease under any fresh identifier while an epoch is left. */
  lemma FenceDocumentsAcquire(db: Database, boot: BootDocument, leaseId: Id)
    requires AuthorityInv(db.authority) && HostFenceOutcome(db.authority, boot).result.Ok?
    requires leaseId !in db.authority.history && db.authority.fence.value.epochCounter < MAX_INTEGER
    ensures var fence := HostFenceOutcome(db.authority, boot).result.value;
      && fence.FenceReply?
      && AcquireOutcome(Apply(db, ReadyFence).authority, boot, fence.fence, leaseId).steps
         == [AcquireLease(boot, fence.fence, leaseId)]
  {
    var a := Apply(db, ReadyFence).authority;
    AuthorityProofs.ReadyKeeps(db.authority);
    AuthorityProofs.CounterIsMaxEpoch(a);
    assert ArchiveLease(a) == a;
    assert EpochCounter(a) + 1 !in Epochs(a.history);
  }

  lemma FixtureTokenIsValid()
    ensures ValidToken(FIXTURE_TOKEN)
  {
  }

  lemma GrantDocumentIsValid(grant: Grant, generation: int)
    requires InPositiveRange(generation) && InPositiveRange(grant.epoch) && ValidPolicy(grant.ttl, grant.renewal)
    requires 0 <= grant.issuedTick < CLOCK_LIMIT
    requires grant.issuedAt == TimestampForTick(grant.issuedTick) && grant.expiresAt == TimestampForTick(grant.expiresTick)
    ensures ValidLeaseDocument(GrantDocument(grant, FIXTURE_TOKEN, generation)) <==> grant.expiresTick < CLOCK_LIMIT
  {
    FixtureTokenIsValid();
    TimestampValidBelowLimit(grant.issuedTick);
    TimestampValidBelowLimit(grant.expiresTick);
  }

  lemma OwnDocumentMatches(a: Authority)
    requires LeaseLive(a) && a.lease.value.token == FIXTURE_TOKEN && a.fence.Some? && a.fence.value.state.READY?
    requires var g := a.lease.value.grant;
      && ValidPolicy(g.ttl, g.renewal) && a.clock < g.expiresTick
      && g.holder == a.fence.value.holder && g.fenceId == a.fence.value.fenceId
    ensures var doc := GrantDocument(a.lease.value.grant, FIXTURE_TOKEN, a.fence.value.authorityGeneration);
      CheckLease(a, doc).None? <==> ValidLeaseDocument(doc)
  {
  }

  /** The document of the current live lease is accepted exactly while its deadline is below one hundred hours. */
  lemma CurrentDocumentAccepted(a: Authority)
    requires AuthorityInv(a) && LeaseLive(a)
    ensures a.fence.Some?
    ensures CheckLease(a, GrantDocument(a.lease.value.grant, FIXTURE_TOKEN, a.fence.value.authorityGeneration)).None?
       <==> a.lease.value.grant.expiresTick < CLOCK_LIMIT
  {
    assert HistoryRowInv(a, a.lease.value.grant.leaseId);
    IssuedBelowLimit(a);
    OwnDocumentMatches(a);
    GrantDocumentIsValid(a.lease.value.grant, a.fence.value.authorityGeneration);
  }

  lemma IssuedBelowLimit(a: Authority)
    requires AuthorityInv(a) && a.lease.Some?
    ensures 0 <= a.lease.value.grant.issuedTick <= a.clock
  {
    AuthorityProofs.RenewalsBounded(a);
    NonNegative(a.lease.value.grant.renewSequence, a.lease.value.grant.renewal);
  }

  lemma NonNegative(n: int, step: int)
    requires 0 <= n && 0 <= step
    ensures 0 <= n * step
  {
  }

  /** The lease document an acquisition answers with is the document of the lease it leaves behind. */
  lemma AcquireAnswersWithItsLease(db: Database, boot: BootDocument, fence: FenceDocument, leaseId: Id)
    requires AcquireOutcome(db.authority, boot, fence, leaseId).result.Ok?
    ensures var outcome := AcquireOutcome(db.authority, boot, fence, leaseId);
      && |outcome.steps| == 1
      && var a := Apply(db, outcome.steps[0]).authority;
      && LeaseLive(a) && a.fence.Some?
      && outcome.result.value == LeaseReply(GrantDocument(a.lease.value.grant, FIXTURE_TOKEN, a.fence.value.authorityGeneration))
  {
  }

  /** The document a renewal answers with is the document of the renewed lease. */
  lemma RenewAnswersWithItsLease(db: Database, doc: LeaseDocument, sequence: int)
    requires RenewOutcome(db.authority, doc, sequence).result.Ok? && db.authority.lease.Some?
    requires db.authority.lease.value.token == FIXTURE_TOKEN
    ensures var outcome := RenewOutcome(db.authority, doc, sequence);
      && |outcome.steps| == 1
      && var a := Apply(db, outcome.steps[0]).authority;
      && LeaseLive(a) && a.fence.Some?
      && outcome.result.value == LeaseReply(GrantDocument(a.lease.value.grant, FIXTURE_TOKEN, a.fence.value.authorityGeneration))
  {
  }

  // ----- repeated requests -----

  /** Recording the same intent again changes nothing and gives the same answer. */
  lemma IntentRepeats(db: Database, lease: LeaseDocument, operation: Operation)
    requires IntentOutcome(db, lease, operation).steps != []
    ensures var outcome := IntentOutcome(db, lease, operation);
      && |outcome.steps| == 1
      && IntentOutcome(Apply(db, outcome.steps[0]), lease, operation) == Say([], outcome.result.value)
  {
  }

  /** Dispatching again changes nothing and gives the same answer, whichever fault is armed. */
  lemma DispatchRepeats(db: Database, lease: LeaseDocument, operation: OperationRef, ticketId: Id, again: Id, armed: FaultPoint)
    requires DispatchOutcome(db, lease, operation, ticketId, NoFault).steps != []
    ensures var outcome := DispatchOutcome(db, lease, operation, ticketId, NoFault);
      && |outcome.steps| == 1
      && DispatchOutcome(Apply(db, outcome.steps[0]), lease, operation, again, armed) == Say([], outcome.result.value)
  {
  }

  lemma ResolvedAnswers(db: Database, lease: LeaseDocument, operation: OperationRef, strategy: Strategy, fence: FenceDocument,
                        ticketId: Id, armed: FaultPoint)
    requires operation.id in db.journal.operations && JournalHistory.Resolved(db.journal.operations[operation.id])
    ensures DispatchOutcome(db, lease, operation, ticketId, armed).steps == []
    ensures ReconcileOutcome(db, operation, strategy, fence).steps == []
  {
  }

  lemma ResolvedTicks(db: Database, id: Id, witnessId: Id, armed: FaultPoint)
    requires id in db.journal.operations && JournalHistory.Resolved(db.journal.operations[id])
    ensures TickOutcome(db, id, witnessId, armed).steps == if id in db.journal.queue then [Dequeue(id)] else []
  {
  }

  /** A resolved operation is left alone by every later dispatch, tick and reconciliation of the run. */
  lemma ResolvedIsLeftAlone(db: Database, steps: seq<Step>, lease: LeaseDocument, operation: OperationRef,
                            strategy: Strategy, fence: FenceDocument, ticketId: Id, witnessId: Id, armed: FaultPoint)
    requires Inv(db) && Runs(db, steps) && operation.id in db.journal.operations
    requires JournalHistory.Resolved(db.journal.operations[operation.id])
    ensures var later := ApplyAll(db, steps);
      && operation.id in later.journal.operations
      && later.journal.operations[operation.id] == db.journal.operations[operation.id]
      && DispatchOutcome(later, lease, operation, ticketId, armed).steps == []
      && ReconcileOutcome(later, operation, strategy, fence).steps == []
      && (TickOutcome(later, operation.id, witnessId, armed).steps == []
          || TickOutcome(later, operation.id, witnessId, armed).steps == [Dequeue(operation.id)])
  {
    JournalHistory.RunGrows(db, steps);
    assert JournalHistory.RowAges(db.journal.operations[operation.id], ApplyAll(db, steps).journal.operations[operation.id]);
    ResolvedAnswers(ApplyAll(db, steps), lease, operation, strategy, fence, ticketId, armed);
    ResolvedTicks(ApplyAll(db, steps), operation.id, witnessId, armed);
  }

  lemma SettledWaitAnswers(db: Database, request: RuntimeRequest, s: Session, witnessId: Id)
    requires request.kind.WaitRequest? && request.kind.operation in db.runtime.operations
    requires RuntimeRowInv(request.kind.operation, db.runtime.operations[request.kind.operation])
    requires BelongsTo(db.runtime.operations[request.kind.operation], s)
    requires db.runtime.operations[request.kind.operation].status.SETTLED?
    ensures WaitRuntime(db, request, s, witnessId)
         == Respond([], Completed(request.kind.operation, db.runtime.operations[request.kind.operation].result.value))
  {
  }

  lemma StaysSettled(r: Runtime, q: Runtime, id: Id)
    requires RuntimeHistory.RuntimeGrows(r, q) && id in r.operations && r.operations[id].status.SETTLED?
    requires PlacesInv(q) && RowsInv(q.operations)
    ensures id in q.operations && q.operations[id] == r.operations[id]
    ensures RuntimeRowInv(id, q.operations[id])
    ensures q.operations[id].session in q.sessions && BelongsTo(q.operations[id], q.sessions[q.operations[id].session])
  {
    assert RuntimeHistory.OperationAges(r.operations[id], q.operations[id]);
    assert PlacedIn(q.sessions, q.queue, q.operations[id]);
  }

  /** What a wait on a settled action is told, by the state of the session the request names. */
  function SettledAnswer(db: Database, request: RuntimeRequest, op: RuntimeOperation): RuntimeReply
    requires request.session in db.runtime.sessions && op.result.Some?
  {
    var s := db.runtime.sessions[request.session];
    if !AuthorityCurrent(db.authority, request.instance, request.leaseId, request.epoch) || !NamesSession(s, request)
    then Uncertain(StaleLease, s.generation)
    else if s.stopped then Uncertain(EpisodeStopped, s.generation)
    else if request.session != op.session then Uncertain(StaleLease, s.generation)
    else Completed(op.operationId, op.result.value)
  }

  lemma ForeignSessionWaits(db: Database, request: RuntimeRequest, s: Session, witnessId: Id)
    requires request.kind.WaitRequest? && request.kind.operation in db.runtime.operations
    requires RuntimeRowInv(request.kind.operation, db.runtime.operations[request.kind.operation])
    requires !BelongsTo(db.runtime.operations[request.kind.operation], s)
    ensures WaitRuntime(db, request, s, witnessId) == Respond([], Uncertain(StaleLease, s.generation))
  {
  }

  /** How a wait reaches its session. */
  lemma ServeWait(db: Database, request: RuntimeRequest, s: Session, current: bool, witnessId: Id)
    requires request.kind.WaitRequest?
    ensures ServeSession(db, request, s, current, witnessId) ==
      if !current then Respond(MarkInContext(db.runtime, request.kind.operation, request), Uncertain(StaleLease, s.generation))
      else if !NamesSession(s, request) then Respond([], Uncertain(StaleLease, s.generation))
      else if s.stopped then Respond([], Uncertain(EpisodeStopped, s.generation))
      else WaitRuntime(db, request, s, witnessId)
  {
  }

  lemma ServeSettled(db: Database, request: RuntimeRequest, witnessId: Id)
    requires RuntimeInv(db.runtime) && request.kind.WaitRequest? && request.session in db.runtime.sessions
    requires request.kind.operation in db.runtime.operations && db.runtime.operations[request.kind.operation].status.SETTLED?
    ensures db.runtime.operations[request.kind.operation].result.Some?
    ensures ServeSession(db, request, db.runtime.sessions[request.session],
                         AuthorityCurrent(db.authority, request.instance, request.leaseId, request.epoch), witnessId)
         == Respond([], SettledAnswer(db, request, db.runtime.operations[request.kind.operation]))
  {
    var s, id := db.runtime.sessions[request.session], request.kind.operation;
    assert RuntimeRowInv(id, db.runtime.operations[id]) && SessionInv(db.runtime.operations, request.session, s);
    assert PlacedIn(db.runtime.sessions, db.runtime.queue, db.runtime.operations[id]);
    ServeWait(db, request, s, AuthorityCurrent(db.authority, request.instance, request.leaseId, request.epoch), witnessId);
    if BelongsTo(db.runtime.operations[id], s) {
      SettledWaitAnswers(db, request, s, witnessId);
    } else {
      ForeignSessionWaits(db, request, s, witnessId);
    }
  }

  /** Nothing stands in the way of a new session: authority is current and the instance has nothing open. */
  predicate MayOpen(db: Database, request: RuntimeRequest) {
    && AuthorityCurrent(db.authority, request.instance, request.leaseId, request.epoch)
    && UnresolvedOfInstance(db.runtime, request.instance) == {} && ActiveSessions(db.runtime, request.instance) == {}
  }

  lemma WaitBarrier(db: Database, request: RuntimeRequest, current: bool)
    requires request.kind.WaitRequest?
    requires current == AuthorityCurrent(db.authority, request.instance, request.leaseId, request.epoch)
    ensures var barrier := SessionBarrier(db.runtime, request, current);
      if MayOpen(db, request) then barrier.None?
      else barrier.Some? && barrier.value.steps == [] && barrier.value.result.Err?
  {
  }

  lemma FreshWait(db: Database, request: RuntimeRequest, witnessId: Id)
    requires request.kind.WaitRequest? && request.kind.operation in db.runtime.operations
    requires RuntimeRowInv(request.kind.operation, db.runtime.operations[request.kind.operation])
    requires db.runtime.operations[request.kind.operation].session != request.session
    ensures ServeSession(db, request, FreshSession(request), true, witnessId)
         == Respond([], Uncertain(StaleLease, request.generation))
  {
    ServeWait(db, request, FreshSession(request), true, witnessId);
    ForeignSessionWaits(db, request, FreshSession(request), witnessId);
  }

  /** A wait that names an unknown session is refused, or opens that session and is told the lease is stale. */
  lemma OpenSettled(db: Database, request: RuntimeRequest, current: bool, witnessId: Id)
    requires RowsInv(db.runtime.operations) && PlacesInv(db.runtime)
    requires request.kind.WaitRequest? && request.session !in db.runtime.sessions
    requires current == AuthorityCurrent(db.authority, request.instance, request.leaseId, request.epoch)
    requires request.kind.operation in db.runtime.operations
    ensures var outcome := OpenSession(db, request, current, witnessId);
      if MayOpen(db, request)
      then outcome == Respond([SaveSession(FreshSession(request))], Uncertain(StaleLease, request.generation))
      else outcome.steps == [] && outcome.result.Err?
  {
    assert PlacedIn(db.runtime.sessions, db.runtime.queue, db.runtime.operations[request.kind.operation]);
    WaitBarrier(db, request, current);
    FreshWait(Apply(db, SaveSession(FreshSession(request))), request, witnessId);
  }

  /** Every answer to a wait on a settled action. */
  lemma SettledWait(db: Database, request: RuntimeRequest, witnessId: Id)
    requires RuntimeInv(db.runtime) && request.kind.WaitRequest?
    requires request.kind.operation in db.runtime.operations && db.runtime.operations[request.kind.operation].status.SETTLED?
    ensures var op, outcome := db.runtime.operations[request.kind.operation], RuntimeOutcome(db, request, witnessId);
      && op.result.Some? && op.operationId == request.kind.operation
      && if !InRange(request.epoch) || !InRange(request.generation) then outcome == Fail(Invalid)
         else if request.session in db.runtime.sessions then outcome == Respond([], SettledAnswer(db, request, op))
         else if MayOpen(db, request) then
           outcome == Respond([SaveSession(FreshSession(request))], Uncertain(StaleLease, request.generation))
         else outcome.steps == [] && outcome.result.Err?
  {
    assert RuntimeRowInv(request.kind.operation, db.runtime.operations[request.kind.operation]);
    if request.session in db.runtime.sessions {
      HandlerProofs.SessionFound(db.runtime, request.session);
      ServeSettled(db, request, witnessId);
    } else {
      OpenSettled(db, request, AuthorityCurrent(db.authority, request.instance, request.leaseId, request.epoch), witnessId);
    }
  }

  /** The request speaks for the session of a settled operation, which goes on under current authority. */
  predicate MayAskAgain(db: Database, request: RuntimeRequest, op: RuntimeOperation) {
    && InRange(request.generation) && request.session == op.session && op.session in db.runtime.sessions
    && AuthorityCurrent(db.authority, request.instance, request.leaseId, request.epoch)
    && NamesSession(db.runtime.sessions[op.session], request) && !db.runtime.sessions[op.session].stopped
  }

  lemma SettledAnsweredIff(db: Database, request: RuntimeRequest, witnessId: Id)
    requires RuntimeInv(db.runtime) && request.kind.WaitRequest?
    requires request.kind.operation in db.runtime.operations && db.runtime.operations[request.kind.operation].status.SETTLED?
    ensures var op, outcome := db.runtime.operations[request.kind.operation], RuntimeOutcome(db, request, witnessId);
      && op.result.Some?
      && (outcome == Respond([], Completed(request.kind.operation, op.result.value)) <==> MayAskAgain(db, request, op))
      && (request.session in db.runtime.sessions ==> outcome.steps == [])
  {
    var op := db.runtime.operations[request.kind.operation];
    SettledWait(db, request, witnessId);
    if MayAskAgain(db, request, op) {
      assert SessionInv(db.runtime.operations, op.session, db.runtime.sessions[op.session]);
    }
  }

  /**
   A settled action keeps its row for ever.  At any later point of the run a wait
   on it is answered with the stored result, and commits nothing, if and only if
   the request names the action's session with its instance, lease and epoch, the
   session is not stopped and the authority is current.  Any other wait is
   answered as `SettledWait` lists.
   */
  lemma SettledAnswerIsStable(db: Database, steps: seq<Step>, request: RuntimeRequest, witnessId: Id)
    requires Inv(db) && Runs(db, steps) && request.kind.WaitRequest?
    requires request.kind.operation in db.runtime.operations && db.runtime.operations[request.kind.operation].status.SETTLED?
    ensures var id, op, later := request.kind.operation, db.runtime.operations[request.kind.operation], ApplyAll(db, steps);
      && id in later.runtime.operations && later.runtime.operations[id] == op && op.result.Some?
      && (RuntimeOutcome(later, request, witnessId) == Respond([], Completed(id, op.result.value))
          <==> MayAskAgain(later, request, op))
      && (request.session in later.runtime.sessions ==> RuntimeOutcome(later, request, witnessId).steps == [])
  {
    RuntimeHistory.RunGrows(db, steps);
    RuntimeHistory.RuntimeSafe(db, steps);
    StaysSettled(db.runtime, ApplyAll(db, steps).runtime, request.kind.operation);
    SettledAnsweredIff(ApplyAll(db, steps), request, witnessId);
  }
}
