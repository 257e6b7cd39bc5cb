/**
 Every request handler, started in a state that satisfies the invariant, makes
 only commits that are enabled where it makes them.
 */
module HandlerProofs {
  import opened Wrappers
  import opened Identity
  import opened FixtureClock
  import opened HostRecords
  import opened HostCommits
  import opened HostReplies
  import opened LeaseHandlers
  import opened JournalHandlers
  import opened RuntimeHandlers
  import opened HostInvariants
  import opened HostRuns
  import AuthorityProofs
  import RuntimeProofs

  /** Nothing, or one commit that is enabled. */
  ghost predicate OneCommit(db: Database, steps: seq<Step>, step: Step) {
    steps == [] || (steps == [step] && Enabled(db, step))
  }

  lemma OneCommitRuns(db: Database, steps: seq<Step>, step: Step)
    requires OneCommit(db, steps, step)
    ensures Runs(db, steps)
  {
    RunsOne(db, step);
  }

  // ----- fencing and leases -----

  lemma BootstrapRuns(db: Database, deployment: Id, instance: Id, incarnation: Id,
                      ttl: int, renewal: int, bootId: Id, fenceId: Id)
    requires AuthorityInv(db.authority)
    ensures Runs(db, BootstrapOutcome(db.authority, deployment, instance, incarnation, ttl, renewal, bootId, fenceId).steps)
  {
    RunsOne(db, Bootstrap(Holder(deployment, instance, bootId, incarnation), fenceId, ttl, renewal));
  }

  lemma HostFenceRuns(db: Database, boot: BootDocument)
    requires AuthorityInv(db.authority)
    ensures Runs(db, HostFenceOutcome(db.authority, boot).steps)
  {
    RunsOne(db, ReadyFence);
  }

  lemma AcquireRuns(db: Database, boot: BootDocument, fence: FenceDocument, leaseId: Id)
    requires AuthorityInv(db.authority)
    ensures Runs(db, AcquireOutcome(db.authority, boot, fence, leaseId).steps)
  {
    RunsOne(db, AcquireLease(boot, fence, leaseId));
  }

  lemma RenewEnabled(a: Authority, doc: LeaseDocument, sequence: int)
    requires AuthorityInv(a) && RenewOutcome(a, doc, sequence).steps != []
    ensures RenewOutcome(a, doc, sequence).steps == [RenewLease(doc.leaseId, sequence)]
    ensures LeaseLive(a) && a.lease.value.grant.leaseId == doc.leaseId
    ensures sequence == a.lease.value.grant.renewSequence + 1
    ensures a.lease.value.grant.expiresAt == doc.expiresAt
    ensures ValidTimestamp(doc.expiresAt)
  {
    AuthorityProofs.RenewalsBounded(a);
  }

  lemma RenewStepRuns(db: Database, leaseId: Id, sequence: int)
    requires LeaseLive(db.authority) && db.authority.lease.value.grant.leaseId == leaseId
    requires sequence == db.authority.lease.value.grant.renewSequence + 1
    requires ValidTimestamp(db.authority.lease.value.grant.expiresAt)
    ensures Runs(db, [RenewLease(leaseId, sequence)])
  {
    RunsOne(db, RenewLease(leaseId, sequence));
  }

  lemma RenewRuns(db: Database, doc: LeaseDocument, sequence: int)
    requires AuthorityInv(db.authority)
    ensures Runs(db, RenewOutcome(db.authority, doc, sequence).steps)
  {
    if RenewOutcome(db.authority, doc, sequence).steps != [] {
      RenewEnabled(db.authority, doc, sequence);
      RenewStepRuns(db, doc.leaseId, sequence);
    }
  }

  lemma RevokeEnabled(a: Authority, doc: LeaseDocument)
    requires RevokeOutcome(a, doc).steps != []
    ensures RevokeOutcome(a, doc).steps == [RevokeLease(doc.leaseId, doc.epoch)]
    ensures LeaseLive(a) && a.lease.value.grant.leaseId == doc.leaseId && a.lease.value.grant.epoch == doc.epoch
  {
  }

  lemma RevokeRuns(db: Database, doc: LeaseDocument)
    ensures Runs(db, RevokeOutcome(db.authority, doc).steps)
  {
    if RevokeOutcome(db.authority, doc).steps != [] {
      RevokeEnabled(db.authority, doc);
      RunsOne(db, RevokeLease(doc.leaseId, doc.epoch));
    }
  }

  // ----- sideband journal -----

  lemma IntentEnabled(db: Database, lease: LeaseDocument, operation: Operation)
    requires db.authority.fence.Some?
    ensures OneCommit(db, IntentOutcome(db, lease, operation).steps,
                      RecordIntent(operation.id, IntentRow(operation, lease, db.authority.fence.value.fenceId)))
  {
  }

  lemma IntentRuns(db: Database, lease: LeaseDocument, operation: Operation)
    ensures Runs(db, IntentOutcome(db, lease, operation).steps)
  {
    if db.authority.fence.Some? {
      IntentEnabled(db, lease, operation);
      OneCommitRuns(db, IntentOutcome(db, lease, operation).steps,
                    RecordIntent(operation.id, IntentRow(operation, lease, db.authority.fence.value.fenceId)));
    }
  }

  lemma DispatchEnabled(db: Database, lease: LeaseDocument, operation: OperationRef, ticketId: Id, armed: FaultPoint)
    requires db.authority.lease.Some? && db.authority.fence.Some?
    ensures OneCommit(db, DispatchOutcome(db, lease, operation, ticketId, armed).steps,
                      Admission(db.authority, lease, operation, ticketId))
  {
  }

  function Admission(a: Authority, lease: LeaseDocument, operation: OperationRef, ticketId: Id): Step
    requires a.lease.Some? && a.fence.Some?
  {
    var grant := a.lease.value.grant;
    AdmitOperation(operation.id, IssuedTicket(grant, lease, a.fence.value.fenceId, operation, ticketId), grant.expiresTick)
  }

  lemma DispatchRuns(db: Database, lease: LeaseDocument, operation: OperationRef, ticketId: Id, armed: FaultPoint)
    ensures Runs(db, DispatchOutcome(db, lease, operation, ticketId, armed).steps)
  {
    if db.authority.lease.Some? && db.authority.fence.Some? {
      DispatchEnabled(db, lease, operation, ticketId, armed);
      OneCommitRuns(db, DispatchOutcome(db, lease, operation, ticketId, armed).steps,
                    Admission(db.authority, lease, operation, ticketId));
    }
  }

  /** The effect, receipt, settlement and dequeue commits of one tick follow each other. */
  lemma TickCommitsRun(db: Database, id: Id, w: Witness)
    requires id in db.journal.operations && MayRecordEffect(db, id, w) && id !in db.journal.receipts
    ensures Runs(db, TickCommits(id, w, db.journal.operations[id].payload))
  {
    var steps := TickCommits(id, w, db.journal.operations[id].payload);
    RunsOne(db, steps[0]);
    RunsThen(db, [steps[0]], steps[1]);
    RunsThen(db, [steps[0]] + [steps[1]], steps[2]);
    RunsThen(db, [steps[0]] + [steps[1]] + [steps[2]], steps[3]);
    assert steps == [steps[0]] + [steps[1]] + [steps[2]] + [steps[3]];
  }

  lemma ExecuteEnabled(db: Database, id: Id, witnessId: Id)
    requires AuthorityInv(db.authority)
    requires id in db.journal.queue && id in db.journal.operations && OperationInv(db.journal, db.authority, id)
    requires db.journal.operations[id].state.MAY_HAVE_BEEN_DISPATCHED?
    requires db.authority.clock < db.journal.operations[id].ticketExpiresTick
    requires CheckTicket(db.journal.queue[id], id, db.journal.operations[id].payload, db.journal.operations[id].context).None?
    requires CheckTicketAuthority(db.authority, db.journal.queue[id]).None?
    ensures MayRecordEffect(db, id, EffectWitnessFor(id, db.journal.operations[id], db.journal.queue[id], witnessId))
    ensures id !in db.journal.receipts
  {
  }

  lemma ExecuteRuns(db: Database, id: Id, op: OperationRow, ticket: Ticket, witnessId: Id, armed: FaultPoint)
    requires id in db.journal.operations && op == db.journal.operations[id]
    requires MayRecordEffect(db, id, EffectWitnessFor(id, op, ticket, witnessId)) && id !in db.journal.receipts
    ensures Runs(db, ExecuteOutcome(db.journal, id, op, ticket, witnessId, armed).steps)
  {
    var w := EffectWitnessFor(id, op, ticket, witnessId);
    TickCommitsRun(db, id, w);
    RunsPrefix(db, TickCommits(id, w, op.payload), 1);
  }

  /** A tick that does not execute at most quarantines or dequeues its own operation. */
  lemma QuietTickRuns(db: Database, id: Id)
    requires id in db.journal.queue && id in db.journal.operations
    ensures db.journal.operations[id].state.MAY_HAVE_BEEN_DISPATCHED? ==> Runs(db, [QuarantineOperation(id)])
    ensures !db.journal.operations[id].state.MAY_HAVE_BEEN_DISPATCHED? ==> Runs(db, [Dequeue(id)])
    ensures db.journal.operations[id].state.UNKNOWN? ==> Runs(db, [Dequeue(id), MarkTicketUnknown(id)])
  {
    RunsOne(db, QuarantineOperation(id));
    RunsOne(db, Dequeue(id));
    RunsThen(db, [Dequeue(id)], MarkTicketUnknown(id));
    assert [Dequeue(id)] + [MarkTicketUnknown(id)] == [Dequeue(id), MarkTicketUnknown(id)];
  }

  /** The tick gets as far as the effect. */
  ghost predicate Executable(db: Database, id: Id) {
    && id in db.journal.queue && id in db.journal.operations
    && var op, ticket := db.journal.operations[id], db.journal.queue[id];
    && op.state.MAY_HAVE_BEEN_DISPATCHED? && db.authority.clock < op.ticketExpiresTick
    && CheckTicket(ticket, id, op.payload, op.context).None? && CheckTicketAuthority(db.authority, ticket).None?
  }

  lemma TickShape(db: Database, id: Id, witnessId: Id, armed: FaultPoint)
    requires id in db.journal.queue && id in db.journal.operations && OperationInv(db.journal, db.authority, id)
    ensures var op, steps := db.journal.operations[id], TickOutcome(db, id, witnessId, armed).steps;
      || steps == []
      || (steps == [QuarantineOperation(id)] && op.state.MAY_HAVE_BEEN_DISPATCHED?)
      || (steps == [Dequeue(id)] && !op.state.MAY_HAVE_BEEN_DISPATCHED?)
      || (steps == [Dequeue(id), MarkTicketUnknown(id)] && op.state.UNKNOWN?)
      || (steps == ExecuteOutcome(db.journal, id, op, db.journal.queue[id], witnessId, armed).steps && Executable(db, id))
  {
  }

  lemma TickRuns(db: Database, id: Id, witnessId: Id, armed: FaultPoint)
    requires AuthorityInv(db.authority) && JournalInv(db.journal, db.authority)
    ensures Runs(db, TickOutcome(db, id, witnessId, armed).steps)
  {
    if id in db.journal.queue && id in db.journal.operations {
      assert OperationInv(db.journal, db.authority, id);
      QuietTickRuns(db, id);
      TickShape(db, id, witnessId, armed);
      if Executable(db, id) {
        ExecuteEnabled(db, id, witnessId);
        ExecuteRuns(db, id, db.journal.operations[id], db.journal.queue[id], witnessId, armed);
      }
    }
  }

  lemma ReconcileEnabled(db: Database, operation: OperationRef, strategy: Strategy, fence: FenceDocument)
    requires ReconcileOutcome(db, operation, strategy, fence).steps != []
    requires operation.id in db.journal.operations ==> OperationInv(db.journal, db.authority, operation.id)
    ensures ReconcileOutcome(db, operation, strategy, fence).steps == [ReconcileOperation(operation.id, strategy)]
    ensures operation.id in db.journal.operations && db.journal.operations[operation.id].state.UNKNOWN?
    ensures operation.id in db.journal.effects && strategy.RECEIPT_LOOKUP?
    ensures db.authority.fence.Some? && db.authority.fence.value.state.READY?
  {
  }

  lemma ReconcileRuns(db: Database, operation: OperationRef, strategy: Strategy, fence: FenceDocument)
    requires JournalInv(db.journal, db.authority)
    ensures Runs(db, ReconcileOutcome(db, operation, strategy, fence).steps)
  {
    if ReconcileOutcome(db, operation, strategy, fence).steps != [] {
      ReconcileEnabled(db, operation, strategy, fence);
      RunsOne(db, ReconcileOperation(operation.id, strategy));
    }
  }

  // ----- runtime journal -----

  /** An admission got past every barrier. */
  lemma DispatchRuntimeEnabled(r: Runtime, request: RuntimeRequest, s: Session)
    requires RowsInv(r.operations) && request.kind.DispatchRequest?
    requires DispatchRuntime(r, request, s).steps != []
    ensures DispatchRuntime(r, request, s).steps
         == [AdmitRuntime(AdmittedOperation(s, request.kind.operation, request.kind.action))]
    ensures request.kind.operation !in r.operations && request.kind.action in s.legalActions
    ensures UnresolvedOfInstance(r, s.instance) == {} && |r.operations| < MAX_RUNTIME_OPERATIONS
  {
    NoBarrier(r, s.instance, request.kind.operation);
  }

  lemma DispatchRuntimeRuns(db: Database, request: RuntimeRequest, s: Session)
    requires RowsInv(db.runtime.operations) && request.kind.DispatchRequest?
    requires s.session in db.runtime.sessions && s == db.runtime.sessions[s.session] && !s.stopped
    requires AuthorityCurrent(db.authority, s.instance, s.leaseId, s.epoch)
    ensures Runs(db, DispatchRuntime(db.runtime, request, s).steps)
  {
    if DispatchRuntime(db.runtime, request, s).steps != [] {
      DispatchRuntimeEnabled(db.runtime, request, s);
      RunsOne(db, AdmitRuntime(AdmittedOperation(s, request.kind.operation, request.kind.action)));
    }
  }

  /** A barrier query that names no other operation found nothing at all. */
  lemma NoBarrier(r: Runtime, instance: Id, id: Id)
    requires RowsInv(r.operations) && id !in r.operations
    requires var barrier := FirstOperation(r, UnresolvedOfInstance(r, instance));
             barrier.Ok? && (barrier.value.Some? ==> barrier.value.value.operationId == id)
    ensures UnresolvedOfInstance(r, instance) == {}
  {
  }

  lemma DrainTwice(db: Database, s: Session, op: RuntimeOperation, witnessId: Id)
    requires op.operationId in db.runtime.operations && op == db.runtime.operations[op.operationId]
    requires s.session in db.runtime.sessions && s == db.runtime.sessions[s.session] && BelongsTo(op, s)
    requires op.status.ADMITTED? && AuthorityCurrent(db.authority, op.instance, op.leaseId, op.epoch)
    ensures Runs(db, [BeginRuntime(op.operationId)])
    ensures op.preStateId == s.stateId && op.preGeneration == s.generation && InRange(s.generation + 1) ==>
      Runs(db, [BeginRuntime(op.operationId),
                SettleRuntime(op.operationId, ProofOf(s, op, witnessId), ResultOf(s, op.action), SessionAfter(s, s, op))])
  {
    var id := op.operationId;
    var settle := SettleRuntime(id, ProofOf(s, op, witnessId), ResultOf(s, op.action), SessionAfter(s, s, op));
    RunsOne(db, BeginRuntime(id));
    RunsThen(db, [BeginRuntime(id)], settle);
    assert [BeginRuntime(id)] + [settle] == [BeginRuntime(id), settle];
  }

  /** Draining an admitted operation never finds its pre-state changed, its queue row missing or its action illegal. */
  lemma DrainSteps(db: Database, request: RuntimeRequest, s: Session, op: RuntimeOperation, witnessId: Id)
    requires PlacedIn(db.runtime.sessions, db.runtime.queue, op)
    requires op.session in db.runtime.sessions && s == db.runtime.sessions[op.session] && s.session == op.session
    ensures var steps := Drain(db, request, s, op, witnessId).steps;
      || steps == []
      || (steps == [MarkRuntimeUnknown(op.operationId)] && op.status.ADMITTED?)
      || (&& op.status.ADMITTED? && AuthorityCurrent(db.authority, op.instance, op.leaseId, op.epoch)
          && (|| steps == [BeginRuntime(op.operationId)]
              || (&& steps == [BeginRuntime(op.operationId),
                               SettleRuntime(op.operationId, ProofOf(s, op, witnessId), ResultOf(s, op.action), SessionAfter(s, s, op))]
                  && op.preStateId == s.stateId && op.preGeneration == s.generation && InRange(s.generation + 1))))
  {
  }

  lemma DrainRuns(db: Database, request: RuntimeRequest, s: Session, op: RuntimeOperation, witnessId: Id)
    requires op.operationId in db.runtime.operations && op == db.runtime.operations[op.operationId]
    requires PlacedIn(db.runtime.sessions, db.runtime.queue, op) && BelongsTo(op, s)
    requires s.session in db.runtime.sessions && s == db.runtime.sessions[s.session]
    ensures Runs(db, Drain(db, request, s, op, witnessId).steps)
  {
    DrainSteps(db, request, s, op, witnessId);
    RunsOne(db, MarkRuntimeUnknown(op.operationId));
    if op.status.ADMITTED? && AuthorityCurrent(db.authority, op.instance, op.leaseId, op.epoch) {
      DrainTwice(db, s, op, witnessId);
    }
  }

  lemma WaitRuns(db: Database, request: RuntimeRequest, s: Session, witnessId: Id)
    requires RowsInv(db.runtime.operations) && PlacesInv(db.runtime) && request.kind.WaitRequest?
    requires s.session in db.runtime.sessions && s == db.runtime.sessions[s.session]
    ensures Runs(db, WaitRuntime(db, request, s, witnessId).steps)
  {
    var id := request.kind.operation;
    if id in db.runtime.operations && BelongsTo(db.runtime.operations[id], s) {
      assert RuntimeRowInv(id, db.runtime.operations[id]);
      assert PlacedIn(db.runtime.sessions, db.runtime.queue, db.runtime.operations[id]);
      DrainRuns(db, request, s, db.runtime.operations[id], witnessId);
    }
  }

  lemma StopEnabled(r: Runtime, s: Session)
    requires s.session in r.sessions && s == r.sessions[s.session]
    ensures MaySaveSession(DequeueSessionRows(MarkSessionRows(r, s.session), s.session), s.(stopped := true))
  {
  }

  lemma StopsInOrder(s: Session)
    ensures StopSteps(s, false)
         == [MarkSessionUnknown(s.session)] + ([DequeueSessionUnknown(s.session)] + [SaveSession(s.(stopped := true))])
    ensures StopSteps(s, true) == [RevokeLease(s.leaseId, s.epoch)] + StopSteps(s, false)
  {
  }

  lemma StopRuns(db: Database, s: Session)
    requires s.session in db.runtime.sessions && s == db.runtime.sessions[s.session]
    ensures Runs(db, StopSteps(s, false))
  {
    var marked := Apply(db, MarkSessionUnknown(s.session));
    var dequeued := Apply(marked, DequeueSessionUnknown(s.session));
    var save := SaveSession(s.(stopped := true));
    StopEnabled(db.runtime, s);
    RunsOne(dequeued, save);
    RunsAfter(marked, DequeueSessionUnknown(s.session), [save]);
    RunsAfter(db, MarkSessionUnknown(s.session), [DequeueSessionUnknown(s.session)] + [save]);
    StopsInOrder(s);
  }

  lemma ReleaseRuns(db: Database, s: Session)
    requires s.session in db.runtime.sessions && s == db.runtime.sessions[s.session]
    requires AuthorityCurrent(db.authority, s.instance, s.leaseId, s.epoch)
    ensures Runs(db, StopSteps(s, true))
  {
    var revoke := RevokeLease(s.leaseId, s.epoch);
    StopRuns(Apply(db, revoke), s);
    RunsAfter(db, revoke, StopSteps(s, false));
    StopsInOrder(s);
  }

  /** From a fresh database no uncertain runtime operation carries proof, so reconciling never writes. */
  lemma ReconcileRuntimeWritesNothing(r: Runtime, db: Database, request: RuntimeRequest, s: Session, id: Id)
    requires r == db.runtime && RowsInv(r.operations)
    ensures ReconcileRuntimeOperation(db, request, s, id).steps == []
  {
    if id in r.operations {
      assert RuntimeRowInv(id, r.operations[id]);
    }
  }

  lemma RecoverRuns(db: Database, request: RuntimeRequest, s: Session)
    requires RowsInv(db.runtime.operations) && request.kind.RecoverRequest?
    requires s.session in db.runtime.sessions && s == db.runtime.sessions[s.session]
    requires request.kind.recovery.ReleaseLease? ==> AuthorityCurrent(db.authority, s.instance, s.leaseId, s.epoch)
    ensures Runs(db, RecoverRuntime(db, request, s).steps)
  {
    match request.kind.recovery
    case ReobserveState =>
    case Reconcile(id) => ReconcileRuntimeWritesNothing(db.runtime, db, request, s, id);
    case ReleaseLease => ReleaseRuns(db, s);
    case StopEpisode => StopRuns(db, s);
  }

  lemma MarkRuns(db: Database, id: Id, request: RuntimeRequest)
    ensures Runs(db, MarkInContext(db.runtime, id, request))
  {
    if MarkableInContext(db.runtime, id, request) { RunsOne(db, MarkRuntimeUnknown(id)); }
  }

  lemma ServeSessionRuns(db: Database, request: RuntimeRequest, s: Session, current: bool, witnessId: Id)
    requires RowsInv(db.runtime.operations) && PlacesInv(db.runtime)
    requires s.session in db.runtime.sessions && s == db.runtime.sessions[s.session]
    requires current == AuthorityCurrent(db.authority, request.instance, request.leaseId, request.epoch)
    ensures Runs(db, ServeSession(db, request, s, current, witnessId).steps)
  {
    match request.kind {
      case DispatchRequest(id, _, _) =>
        MarkRuns(db, id, request);
        if current && NamesSession(s, request) && !s.stopped { DispatchRuntimeRuns(db, request, s); }
      case WaitRequest(id) =>
        MarkRuns(db, id, request);
        WaitRuns(db, request, s, witnessId);
      case RecoverRequest(recovery) =>
        if recovery.Reconcile? { MarkRuns(db, recovery.operation, request); }
        if recovery.ReleaseLease? ==> current && NamesSession(s, request) { RecoverRuns(db, request, s); }
      case _ =>
    }
  }

  lemma NoOneActive(r: Runtime, instance: Id)
    requires FirstOperation(r, UnresolvedOfInstance(r, instance)) == Ok(None)
    requires FirstSession(r, ActiveSessions(r, instance)) == Ok(None)
    ensures UnresolvedOfInstance(r, instance) == {} && ActiveSessions(r, instance) == {}
  {
  }

  lemma BarrierMakesNoCommit(r: Runtime, request: RuntimeRequest, current: bool)
    ensures SessionBarrier(r, request, current).Some? ==> SessionBarrier(r, request, current).value.steps == []
  {
  }

  /** Only a session that every barrier lets through is created. */
  lemma OpenSessionEnabled(r: Runtime, request: RuntimeRequest, current: bool)
    requires request.session !in r.sessions && InRange(request.epoch) && InRange(request.generation)
    requires SessionBarrier(r, request, current).None?
    ensures current && MaySaveSession(r, FreshSession(request))
  {
    NoOneActive(r, request.instance);
  }

  lemma OpenSessionRuns(db: Database, request: RuntimeRequest, current: bool, witnessId: Id)
    requires RowsInv(db.runtime.operations) && PlacesInv(db.runtime) && request.session !in db.runtime.sessions
    requires InRange(request.epoch) && InRange(request.generation)
    requires current == AuthorityCurrent(db.authority, request.instance, request.leaseId, request.epoch)
    ensures Runs(db, OpenSession(db, request, current, witnessId).steps)
  {
    BarrierMakesNoCommit(db.runtime, request, current);
    if SessionBarrier(db.runtime, request, current).None? {
      var s := FreshSession(request);
      var step := SaveSession(s);
      OpenSessionEnabled(db.runtime, request, current);
      RuntimeProofs.SavePlaces(db.runtime, s);
      ServeSessionRuns(Apply(db, step), request, s, current, witnessId);
      RunsAfter(db, step, ServeSession(Apply(db, step), request, s, current, witnessId).steps);
    }
  }

  lemma SessionFound(r: Runtime, session: Id)
    requires ChainsInv(r) && |r.operations| <= MAX_RUNTIME_OPERATIONS && session in r.sessions
    ensures LookupSession(r, session) == Ok(Some(r.sessions[session]))
    ensures r.sessions[session].session == session
  {
    assert SessionInv(r.operations, session, r.sessions[session]);
    RuntimeProofs.TurnIndexBounded(r, session);
  }

  lemma RuntimeRuns(db: Database, request: RuntimeRequest, witnessId: Id)
    requires RuntimeInv(db.runtime)
    ensures Runs(db, RuntimeOutcome(db, request, witnessId).steps)
  {
    var current := AuthorityCurrent(db.authority, request.instance, request.leaseId, request.epoch);
    if InRange(request.epoch) && InRange(request.generation) {
      if request.session in db.runtime.sessions {
        SessionFound(db.runtime, request.session);
        ServeSessionRuns(db, request, db.runtime.sessions[request.session], current, witnessId);
      } else {
        OpenSessionRuns(db, request, current, witnessId);
      }
    }
  }
}
