/**
 Runs of the fixture server.  An event is one request handled under the store
 mutex: the identifiers its handler draws, the fault armed for it, and where a
 crash cuts it off.  A crash is followed by the recovery transaction of the next
 process.  Every run starts by opening an empty database.
 */
module HostEvents {
  import opened Wrappers
  import opened Identity
  import opened HostRecords
  import opened HostCommits
  import opened HostReplies
  import opened LeaseHandlers
  import opened JournalHandlers
  import opened RuntimeHandlers
  import opened HostInvariants
  import opened HostRuns
  import opened HandlerProofs

  datatype Capability =
    | BOOTSTRAP | HOST_FENCE | LEASE_ACQUIRE | LEASE_RENEW | LEASE_REVOKE
    | OPERATION_SUBMIT | RECOVERY_READ | RECOVERY_RECONCILE

  datatype Request =
    | BootstrapRequest(deployment: Id, instance: Id, incarnation: Id, ttl: int, renewal: int)
    | HostFenceRequest(boot: BootDocument)
    | LeaseAcquireRequest(boot: BootDocument, fence: FenceDocument)
    | LeaseRenewRequest(lease: LeaseDocument, sequence: int)
    | LeaseRevokeRequest(lease: LeaseDocument)
    | OperationIntentRequest(lease: LeaseDocument, intent: Operation)
    | OperationDispatchRequest(lease: LeaseDocument, operation: OperationRef)
    | OperationReconcileRequest(operation: OperationRef, strategy: Strategy, fence: FenceDocument)
    | HostTick(id: Id)
    | RuntimeV3(request: RuntimeRequest)

  /** The UUIDs a handler may draw while it serves one request. */
  datatype Draws = Draws(bootId: Id, fenceId: Id, leaseId: Id, ticketId: Id, witnessId: Id)

  /** Capability a request must carry; runtime-v3 frames need none. */
  function RequiredCapability(request: Request): Option<Capability> {
    match request
    case BootstrapRequest(_, _, _, _, _) => Some(BOOTSTRAP)
    case HostFenceRequest(_) => Some(HOST_FENCE)
    case LeaseAcquireRequest(_, _) => Some(LEASE_ACQUIRE)
    case LeaseRenewRequest(_, _) => Some(LEASE_RENEW)
    case LeaseRevokeRequest(_) => Some(LEASE_REVOKE)
    case OperationIntentRequest(_, _) => Some(OPERATION_SUBMIT)
    case OperationDispatchRequest(_, _) => Some(OPERATION_SUBMIT)
    case OperationReconcileRequest(_, _, _) => Some(RECOVERY_RECONCILE)
    case HostTick(_) => Some(RECOVERY_RECONCILE)
    case RuntimeV3(_) => None
  }

  /** `DurableHost::handle` on a frame that carries the right capability. */
  function Admitted(db: Database, request: Request, draws: Draws, armed: FaultPoint): Outcome {
    match request
    case BootstrapRequest(deployment, instance, incarnation, ttl, renewal) =>
      BootstrapOutcome(db.authority, deployment, instance, incarnation, ttl, renewal, draws.bootId, draws.fenceId)
    case HostFenceRequest(boot) => HostFenceOutcome(db.authority, boot)
    case LeaseAcquireRequest(boot, fence) => AcquireOutcome(db.authority, boot, fence, draws.leaseId)
    case LeaseRenewRequest(lease, sequence) => RenewOutcome(db.authority, lease, sequence)
    case LeaseRevokeRequest(lease) => RevokeOutcome(db.authority, lease)
    case OperationIntentRequest(lease, operation) => IntentOutcome(db, lease, operation)
    case OperationDispatchRequest(lease, operation) => DispatchOutcome(db, lease, operation, draws.ticketId, armed)
    case OperationReconcileRequest(operation, strategy, fence) => ReconcileOutcome(db, operation, strategy, fence)
    case HostTick(id) => TickOutcome(db, id, draws.witnessId, armed)
    case RuntimeV3(request) => RuntimeOutcome(db, request, draws.witnessId)
  }

  function Handled(db: Database, capability: Capability, request: Request, draws: Draws, armed: FaultPoint): Outcome {
    var required := RequiredCapability(request);
    if required.Some? && capability != required.value then Fail(Forbidden) else Admitted(db, request, draws, armed)
  }

  datatype Event = Event(
    capability: Capability, request: Request, draws: Draws, armed: FaultPoint, cut: Option<nat>)

  function EventOutcome(db: Database, e: Event): Outcome {
    Handled(db, e.capability, e.request, e.draws, e.armed)
  }

  /** A crash after `n` commits, or after all of them. */
  function Cut(steps: seq<Step>, n: nat): seq<Step> {
    if n <= |steps| then steps[..n] else steps
  }

  function EventSteps(db: Database, e: Event): seq<Step> {
    var outcome := EventOutcome(db, e);
    match e.cut
    case Some(n) => Cut(outcome.steps, n) + [Reopen]
    case None => if outcome.action.Crash? then outcome.steps + [Reopen] else outcome.steps
  }

  /** All commits of a run, from the first `open` on. */
  function RunSteps(events: seq<Event>): seq<Step> {
    if events == [] then [Reopen]
    else
      var before := RunSteps(events[..|events| - 1]);
      before + EventSteps(ApplyAll(EmptyDatabase, before), events[|events| - 1])
  }

  function RunState(events: seq<Event>): Database { ApplyAll(EmptyDatabase, RunSteps(events)) }

  lemma AdmittedRuns(db: Database, request: Request, draws: Draws, armed: FaultPoint)
    requires Inv(db)
    ensures Runs(db, Admitted(db, request, draws, armed).steps)
  {
    match request
    case BootstrapRequest(deployment, instance, incarnation, ttl, renewal) =>
      BootstrapRuns(db, deployment, instance, incarnation, ttl, renewal, draws.bootId, draws.fenceId);
    case HostFenceRequest(boot) => HostFenceRuns(db, boot);
    case LeaseAcquireRequest(boot, fence) => AcquireRuns(db, boot, fence, draws.leaseId);
    case LeaseRenewRequest(lease, sequence) => RenewRuns(db, lease, sequence);
    case LeaseRevokeRequest(lease) => RevokeRuns(db, lease);
    case OperationIntentRequest(lease, operation) => IntentRuns(db, lease, operation);
    case OperationDispatchRequest(lease, operation) => DispatchRuns(db, lease, operation, draws.ticketId, armed);
    case OperationReconcileRequest(operation, strategy, fence) => ReconcileRuns(db, operation, strategy, fence);
    case HostTick(id) => TickRuns(db, id, draws.witnessId, armed);
    case RuntimeV3(request) => RuntimeRuns(db, request, draws.witnessId);
  }

  lemma ThenReopen(db: Database, steps: seq<Step>)
    requires Runs(db, steps)
    ensures Runs(db, steps + [Reopen])
  {
    RunsThen(db, steps, Reopen);
  }

  lemma EventRunsIf(db: Database, e: Event)
    requires Runs(db, Admitted(db, e.request, e.draws, e.armed).steps)
    ensures Runs(db, EventSteps(db, e))
  {
    var steps := EventOutcome(db, e).steps;
    assert Runs(db, steps);
    ThenReopen(db, steps);
    if e.cut.Some? && e.cut.value <= |steps| {
      RunsPrefix(db, steps, e.cut.value);
      ThenReopen(db, steps[..e.cut.value]);
    }
  }

  /** One event, with whatever fault and cut, makes only enabled commits. */
  lemma EventRuns(db: Database, e: Event)
    requires Inv(db)
    ensures Runs(db, EventSteps(db, e))
  {
    AdmittedRuns(db, e.request, e.draws, e.armed);
    EventRunsIf(db, e);
  }

  /**
   Whatever requests arrive and wherever crashes fall, a run from an empty
   database commits only what its guards established, and every state it passes
   through satisfies the invariant.
   */
  lemma {:induction false} EveryRunIsSafe(events: seq<Event>)
    ensures Runs(EmptyDatabase, RunSteps(events))
    ensures Inv(RunState(events))
    decreases |events|
  {
    EmptyInv();
    if events == [] {
      RunsOne(EmptyDatabase, Reopen);
    } else {
      var init, last := events[..|events| - 1], events[|events| - 1];
      EveryRunIsSafe(init);
      EventRuns(RunState(init), last);
      RunsConcat(EmptyDatabase, RunSteps(init), EventSteps(RunState(init), last));
    }
    RunKeeps(EmptyDatabase, RunSteps(events));
  }

  /** The states between commits satisfy the invariant too: a crash can observe any of them. */
  lemma EveryStateIsSafe(events: seq<Event>, n: nat)
    requires n <= |RunSteps(events)|
    ensures Inv(ApplyAll(EmptyDatabase, RunSteps(events)[..n]))
  {
    EveryRunIsSafe(events);
    EmptyInv();
    RunsPrefix(EmptyDatabase, RunSteps(events), n);
    RunKeeps(EmptyDatabase, RunSteps(events)[..n]);
  }

  /** One more event only adds its own commits. */
  lemma RunExtended(events: seq<Event>, e: Event)
    ensures RunSteps(events + [e]) == RunSteps(events) + EventSteps(RunState(events), e)
    ensures RunState(events + [e]) == ApplyAll(RunState(events), EventSteps(RunState(events), e))
  {
    assert (events + [e])[..|events|] == events;
    RunsConcat(EmptyDatabase, RunSteps(events), EventSteps(RunState(events), e));
  }

  // ----- capabilities -----

  /** The commits a capability is for. */
  predicate Confined(capability: Capability, step: Step) {
    match capability
    case BOOTSTRAP => step.Bootstrap?
    case HOST_FENCE => step.ReadyFence?
    case LEASE_ACQUIRE => step.AcquireLease?
    case LEASE_RENEW => step.RenewLease?
    case LEASE_REVOKE => step.RevokeLease?
    case OPERATION_SUBMIT => step.RecordIntent? || step.AdmitOperation?
    case RECOVERY_READ => false
    case RECOVERY_RECONCILE =>
      || step.RecordEffect? || step.RecordReceipt? || step.SettleOperation? || step.Dequeue?
      || step.QuarantineOperation? || step.MarkTicketUnknown? || step.ReconcileOperation?
  }

  lemma TickConfined(db: Database, id: Id, witnessId: Id, armed: FaultPoint)
    ensures forall i :: 0 <= i < |TickOutcome(db, id, witnessId, armed).steps| ==>
      Confined(RECOVERY_RECONCILE, TickOutcome(db, id, witnessId, armed).steps[i])
  {
  }

  /** The requests a capability is for. */
  predicate Permits(capability: Capability, request: Request) {
    match capability
    case BOOTSTRAP => request.BootstrapRequest?
    case HOST_FENCE => request.HostFenceRequest?
    case LEASE_ACQUIRE => request.LeaseAcquireRequest?
    case LEASE_RENEW => request.LeaseRenewRequest?
    case LEASE_REVOKE => request.LeaseRevokeRequest?
    case OPERATION_SUBMIT => request.OperationIntentRequest? || request.OperationDispatchRequest?
    case RECOVERY_READ => false
    case RECOVERY_RECONCILE => request.HostTick? || request.OperationReconcileRequest?
  }

  /** A sideband request is served exactly under the capability that is for it, and otherwise forbidden. */
  lemma ForbiddenUnlessPermitted(db: Database, capability: Capability, request: Request, draws: Draws, armed: FaultPoint)
    ensures Handled(db, capability, request, draws, armed)
         == if request.RuntimeV3? || Permits(capability, request) then Admitted(db, request, draws, armed) else Fail(Forbidden)
  {
  }

  lemma LeaseConfined(db: Database, capability: Capability, request: Request, draws: Draws, armed: FaultPoint)
    requires Permits(capability, request) && !Permits(OPERATION_SUBMIT, request) && !Permits(RECOVERY_RECONCILE, request)
    ensures var steps := Admitted(db, request, draws, armed).steps;
      forall i :: 0 <= i < |steps| ==> Confined(capability, steps[i])
  {
  }

  lemma OperationConfined(db: Database, capability: Capability, request: Request, draws: Draws, armed: FaultPoint)
    requires Permits(capability, request) && (Permits(OPERATION_SUBMIT, request) || Permits(RECOVERY_RECONCILE, request))
    ensures var steps := Admitted(db, request, draws, armed).steps;
      forall i :: 0 <= i < |steps| ==> Confined(capability, steps[i])
  {
    if request.HostTick? { TickConfined(db, request.id, draws.witnessId, armed); }
  }

  /** Whatever is requested and whatever fault is armed, a sideband request commits only what its capability is for. */
  lemma CapabilityConfines(db: Database, capability: Capability, request: Request, draws: Draws, armed: FaultPoint)
    requires !request.RuntimeV3?
    ensures var steps := Handled(db, capability, request, draws, armed).steps;
      forall i :: 0 <= i < |steps| ==> Confined(capability, steps[i])
  {
    ForbiddenUnlessPermitted(db, capability, request, draws, armed);
    if Permits(capability, request) {
      if Permits(OPERATION_SUBMIT, request) || Permits(RECOVERY_RECONCILE, request) {
        OperationConfined(db, capability, request, draws, armed);
      } else {
        LeaseConfined(db, capability, request, draws, armed);
      }
    }
  }

  // ----- injected faults are crashes at a commit boundary -----

  lemma TickFaultIsCut(db: Database, id: Id, witnessId: Id, armed: FaultPoint)
    ensures TickOutcome(db, id, witnessId, armed).steps <= TickOutcome(db, id, witnessId, NoFault).steps
  {
  }

  lemma DispatchFaultIsCut(db: Database, lease: LeaseDocument, operation: OperationRef, ticketId: Id, armed: FaultPoint)
    ensures DispatchOutcome(db, lease, operation, ticketId, armed).steps <= DispatchOutcome(db, lease, operation, ticketId, NoFault).steps
  {
  }

  lemma FaultIsCut(db: Database, request: Request, draws: Draws, armed: FaultPoint)
    ensures Admitted(db, request, draws, armed).steps <= Admitted(db, request, draws, NoFault).steps
  {
    match request
    case HostTick(id) => TickFaultIsCut(db, id, draws.witnessId, armed);
    case OperationDispatchRequest(lease, operation) => DispatchFaultIsCut(db, lease, operation, draws.ticketId, armed);
    case _ =>
  }

  /** A fault that kills the process leaves exactly what a crash at some commit of the unfaulted request leaves. */
  lemma InjectedCrashIsCut(db: Database, e: Event)
    requires EventOutcome(db, e).action.Crash? && e.cut.None?
    ensures exists n: nat :: EventSteps(db, e) == EventSteps(db, e.(armed := NoFault, cut := Some(n)))
  {
    FaultIsCut(db, e.request, e.draws, e.armed);
    var n := |EventOutcome(db, e).steps|;
    assert EventSteps(db, e) == EventSteps(db, e.(armed := NoFault, cut := Some(n)));
  }
}
