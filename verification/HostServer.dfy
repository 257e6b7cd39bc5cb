/** The request dispatcher and the serve-and-restart loop over it. */
module HostServer {
  import opened Wrappers
  import opened HostRecords
  import opened HostCommits
  import opened HostReplies
  import opened HostInvariants
  import opened HostEvents
  import opened HostStore
  import LeaseMethods
  import JournalMethods
  import RuntimeMethods

  ghost predicate AboutLease(request: Request) {
    || request.BootstrapRequest? || request.HostFenceRequest? || request.LeaseAcquireRequest?
    || request.LeaseRenewRequest? || request.LeaseRevokeRequest?
  }

  method HandleLease(host: DurableHost, request: Request, draws: Draws)
    returns (result: Result<Reply, FixtureError>, action: ResponseAction)
    requires AboutLease(request)
    modifies host
    ensures host.Did(old(host.Tables()), old(host.committed),
                     Admitted(old(host.Tables()), request, draws, NoFault), result, action)
  {
    match request {
      case BootstrapRequest(deployment, instance, incarnation, ttl, renewal) =>
        result, action := LeaseMethods.Bootstrap(host, deployment, instance, incarnation, ttl, renewal, draws.bootId, draws.fenceId);
      case HostFenceRequest(boot) => result, action := LeaseMethods.HostFence(host, boot);
      case LeaseAcquireRequest(boot, fence) => result, action := LeaseMethods.Acquire(host, boot, fence, draws.leaseId);
      case LeaseRenewRequest(lease, sequence) => result, action := LeaseMethods.Renew(host, lease, sequence);
      case LeaseRevokeRequest(lease) => result, action := LeaseMethods.Revoke(host, lease);
    }
  }

  /** `DurableHost::handle`. */
  method Handle(host: DurableHost, faults: FaultController, capability: Capability, request: Request, draws: Draws)
    returns (result: Result<Reply, FixtureError>, action: ResponseAction)
    requires RuntimeMethods.Keyed(host.Tables().runtime)
    modifies host, faults
    ensures host.Did(old(host.Tables()), old(host.committed),
                     Handled(old(host.Tables()), capability, request, draws, old(faults.Armed())), result, action)
  {
    var required := RequiredCapability(request);
    if required.Some? && capability != required.value { return Err(Forbidden), Send; }
    match request {
      case OperationIntentRequest(lease, operation) => result, action := JournalMethods.Intent(host, lease, operation);
      case OperationDispatchRequest(lease, operation) =>
        result, action := JournalMethods.Dispatch(host, faults, lease, operation, draws.ticketId);
      case OperationReconcileRequest(operation, strategy, fence) =>
        result, action := JournalMethods.Reconcile(host, operation, strategy, fence);
      case HostTick(id) => result, action := JournalMethods.Tick(host, faults, id, draws.witnessId);
      case RuntimeV3(runtime) => result, action := RuntimeMethods.HandleRuntime(host, runtime, draws.witnessId);
      case _ => result, action := HandleLease(host, request, draws);
    }
  }

  lemma RowsAreKeyed(db: Database)
    requires RuntimeInv(db.runtime)
    ensures RuntimeMethods.Keyed(db.runtime)
  {
    forall id | id in db.runtime.operations ensures db.runtime.operations[id].operationId == id {
      assert RuntimeRowInv(id, db.runtime.operations[id]);
    }
    forall id | id in db.runtime.sessions ensures db.runtime.sessions[id].session == id {
      assert SessionInv(db.runtime.operations, id, db.runtime.sessions[id]);
    }
  }

  lemma KeyedAfter(events: seq<Event>)
    ensures RuntimeMethods.Keyed(RunState(events).runtime)
  {
    EveryRunIsSafe(events);
    RowsAreKeyed(RunState(events));
  }

  lemma FirstOpen()
    ensures Apply(EmptyDatabase, Reopen) == RunState([])
  {
    ApplyOne(EmptyDatabase, Reopen);
  }

  /** The state after one more event is what its handler leaves, reopened if it killed the process. */
  lemma NextState(events: seq<Event>, e: Event)
    requires e.cut.None?
    ensures var db := RunState(events);
      var outcome := EventOutcome(db, e);
      RunState(events + [e]) == if outcome.action.Crash? then Apply(ApplyAll(db, outcome.steps), Reopen) else ApplyAll(db, outcome.steps)
  {
    var steps := EventOutcome(RunState(events), e).steps;
    RunExtended(events, e);
    ApplyMore(RunState(events), steps, Reopen);
  }

  method ServeNext(host: DurableHost, ghost events: seq<Event>, e: Event) returns (next: DurableHost)
    requires host.Tables() == RunState(events) && e.cut.None?
    modifies host
    ensures next == host || fresh(next)
    ensures next.Tables() == RunState(events + [e])
  {
    KeyedAfter(events);
    NextState(events, e);
    var faults := new FaultController(e.armed);
    var _, action := Handle(host, faults, e.capability, e.request, e.draws);
    next := host;
    if action.Crash? { next := new DurableHost.Open(host.Tables()); }
  }

  /**
   Serving requests one after the other, restarting the process whenever an
   injected fault kills it, leaves exactly the state the run specifies, and that
   state satisfies the invariant.
   */
  method ServeAll(events: seq<Event>) returns (host: DurableHost)
    requires forall i :: 0 <= i < |events| ==> events[i].cut.None?
    ensures fresh(host) && host.Tables() == RunState(events) && Inv(host.Tables())
  {
    FirstOpen();
    host := new DurableHost.Open(EmptyDatabase);
    for i := 0 to |events|
      invariant fresh(host) && host.Tables() == RunState(events[..i])
    {
      assert events[..i + 1] == events[..i] + [events[i]];
      host := ServeNext(host, events[..i], events[i]);
    }
    assert events[..|events|] == events;
    EveryRunIsSafe(events);
  }
}
