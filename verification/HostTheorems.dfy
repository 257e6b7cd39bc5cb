/**
 The main results, stated over runs of the server: any requests, any armed
 faults, a crash after any commit, from an empty database.
 */
module HostTheorems {
  import opened Wrappers
  import opened Identity
  import opened FixtureClock
  import opened HostRecords
  import opened HostCommits
  import opened HostReplies
  import opened LeaseHandlers
  import opened JournalHandlers
  import opened RuntimeHandlers
  import opened HostInvariants
  import opened HostRuns
  import opened HostEvents
  import AuthorityProofs
  import AuthorityHistory
  import AuthorityTheorems
  import JournalHistory
  import JournalTheorems
  import RuntimeHistory
  import RuntimeTheorems

  /** Every operation has at most one effect over the whole run, on record exactly when it happened. */
  lemma OneEffectPerOperation(events: seq<Event>, id: Id)
    ensures JournalTheorems.EffectCount(RunSteps(events), id) == if id in RunState(events).journal.effects then 1 else 0
    ensures JournalTheorems.ReceiptCount(RunSteps(events), id) == if id in RunState(events).journal.receipts then 1 else 0
    ensures JournalTheorems.ReceiptCount(RunSteps(events), id) <= JournalTheorems.EffectCount(RunSteps(events), id) <= 1
  {
    EveryRunIsSafe(events);
    JournalTheorems.EffectsAreUnique(RunSteps(events), id);
    JournalTheorems.ReceiptsAreUnique(RunSteps(events), id);
    if id in RunState(events).journal.receipts {
      JournalTheorems.TablesAgree(RunState(events).journal, RunState(events).authority, id);
    }
  }

  /** Every effect of the run happens before the deadline and under the lease of its own dispatch. */
  lemma EveryEffectIsAuthorised(events: seq<Event>, k: nat)
    requires k < |RunSteps(events)| && RunSteps(events)[k].RecordEffect?
    ensures exists i, d :: JournalTheorems.EffectOf(EmptyDatabase, RunSteps(events), i, d, k)
  {
    EveryRunIsSafe(events);
    JournalTheorems.EffectBelongsToItsDispatch(RunSteps(events), k);
  }

  /** An operation dispatched under a lease that does not fit it has no effect anywhere in the run. */
  lemma NoForeignEffect(events: seq<Event>, d: nat)
    requires d < |RunSteps(events)| && RunSteps(events)[d].AdmitOperation?
    requires !JournalTheorems.Fits(StateAt(EmptyDatabase, RunSteps(events), d), RunSteps(events)[d].id)
    ensures JournalTheorems.EffectCount(RunSteps(events), RunSteps(events)[d].id) == 0
    ensures JournalTheorems.Ineffective(RunState(events).journal, RunSteps(events)[d].id)
  {
    EveryRunIsSafe(events);
    JournalTheorems.ForeignNeverTakesEffect(RunSteps(events), d);
  }

  /**
   Every session of the run was created by some commit, its settled actions form
   a gap-free chain from the generation of that commit, and every runtime
   operation is settled at most once.
   */
  lemma EveryChainIsGapFree(events: seq<Event>, session: Id, id: Id)
    ensures session in RunState(events).runtime.sessions ==>
      exists k :: && RuntimeTheorems.CreatedAt(RunSteps(events), k, session)
                  && RuntimeTheorems.ChainFrom(RunState(events).runtime, session, RunSteps(events)[k].row.generation)
    ensures RuntimeTheorems.SettlementCount(RunSteps(events), id)
         == if RuntimeTheorems.IsSettled(RunState(events).runtime, id) then 1 else 0
  {
    EveryRunIsSafe(events);
    RuntimeTheorems.SettlementsAreUnique(RunSteps(events), id);
    if session in RunState(events).runtime.sessions {
      var k := RuntimeTheorems.ChainStartsAtCreation(RunSteps(events), session);
    }
  }

  // ----- every state of every run -----

  /** The state after the first `n` commits of a run. */
  function Reached(events: seq<Event>, n: nat): Database
    requires n <= |RunSteps(events)|
  {
    ApplyAll(EmptyDatabase, RunSteps(events)[..n])
  }

  /** At any moment a live lease stands under its own open fence, and the authority join is a check of the lease row. */
  lemma LiveLeaseIsReady(events: seq<Event>, n: nat, instance: Id, leaseId: Id, epoch: int)
    requires n <= |RunSteps(events)|
    ensures var a := Reached(events, n).authority;
      && (LeaseLive(a) ==> && a.fence.Some? && a.fence.value.state.READY?
                           && a.lease.value.grant.holder == a.fence.value.holder
                           && a.lease.value.grant.fenceId == a.fence.value.fenceId)
      && (AuthorityCurrent(a, instance, leaseId, epoch) <==>
            && LeaseLive(a) && a.lease.value.grant.holder.instance == instance
            && a.lease.value.grant.leaseId == leaseId && a.lease.value.grant.epoch == epoch)
  {
    EveryStateIsSafe(events, n);
    AuthorityTheorems.JoinIsRowCheck(Reached(events, n).authority, instance, leaseId, epoch);
  }

  /** At any moment the deadline is exact, nothing saturates, and history, counter and lease row agree. */
  lemma DeadlinesAreExact(events: seq<Event>, n: nat)
    requires n <= |RunSteps(events)|
    ensures var a := Reached(events, n).authority;
      && 0 <= a.clock < CLOCK_LIMIT
      && (a.fence.Some? ==> a.fence.value.epochCounter == MaxEpoch(a.history))
      && (a.lease.Some? ==>
            var g := a.lease.value.grant;
            && g.expiresTick == a.clock + g.ttl == g.issuedTick + g.ttl + g.renewSequence * g.renewal
            && RenewedClock(a) == a.clock + g.renewal
            && SaturatingAdd(RenewedClock(a), g.ttl) == g.expiresTick + g.renewal
            && g.leaseId in a.history && a.history[g.leaseId].grant == g)
      && (forall id :: id in a.history && !a.history[id].grant.revoked ==> a.lease.Some? && id == a.lease.value.grant.leaseId)
  {
    EveryStateIsSafe(events, n);
    var a := Reached(events, n).authority;
    AuthorityTheorems.HistoryAgrees(a);
    if a.lease.Some? { AuthorityTheorems.LeaseArithmetic(a); }
  }

  /** At any moment the journal tables agree about every operation. */
  lemma TablesAgreeThroughout(events: seq<Event>, n: nat, id: Id)
    requires n <= |RunSteps(events)| && id in Reached(events, n).journal.operations
    ensures var j := Reached(events, n).journal;
      var op := j.operations[id];
      && (op.effectWitness.Some? <==> id in j.effects)
      && (op.effectWitness.Some? ==> j.effects[id].effectWitness == op.effectWitness.value)
      && (id in j.receipts ==> id in j.effects && j.receipts[id].effectWitness == j.effects[id].effectWitness)
      && (op.state.SETTLED? ==> id in j.receipts)
      && (op.state.RECONCILED? ==> id in j.effects)
      && (op.state.INTENT_RECORDED? || op.state.MAY_HAVE_BEEN_DISPATCHED? ==> id !in j.effects)
      && (op.state.MAY_HAVE_BEEN_DISPATCHED? ==> id in j.queue)
  {
    EveryStateIsSafe(events, n);
    JournalTheorems.TablesAgree(Reached(events, n).journal, Reached(events, n).authority, id);
  }

  /** At any moment an instance has at most one unresolved operation and one unstopped session. */
  lemma InstancesAreBounded(events: seq<Event>, n: nat, instance: Id)
    requires n <= |RunSteps(events)|
    ensures var r := Reached(events, n).runtime;
      && |UnresolvedOfInstance(r, instance)| <= 1 && |ActiveSessions(r, instance)| <= 1 && |r.operations| <= 64
      && (forall id :: id in r.operations ==> RuntimeTheorems.Proven(r.operations[id]))
  {
    EveryStateIsSafe(events, n);
    RuntimeTheorems.InstanceBounds(Reached(events, n).runtime, instance);
  }

  /** At no moment is any request answered with a changed pre-state, a missing queue row or a rejected operation. */
  lemma NoAlarmThroughout(events: seq<Event>, n: nat, request: RuntimeRequest, witnessId: Id)
    requires n <= |RunSteps(events)|
    ensures RuntimeTheorems.Quiet(RuntimeOutcome(Reached(events, n), request, witnessId))
  {
    EveryStateIsSafe(events, n);
    RuntimeTheorems.AlarmsNeverRing(Reached(events, n), request, witnessId);
  }

  /** An operation found begun at the last generation is never settled by anything that follows in the run. */
  lemma StuckThroughout(events: seq<Event>, m: nat, n: nat, id: Id)
    requires m <= n <= |RunSteps(events)| && RuntimeTheorems.Stuck(Reached(events, m).runtime, id)
    ensures RuntimeTheorems.StuckSince(Reached(events, m).runtime, Reached(events, n).runtime, RunSteps(events)[m..n], id)
  {
    EveryRunIsSafe(events);
    EveryStateIsSafe(events, m);
    RunsFrom(EmptyDatabase, RunSteps(events), m, n);
    RuntimeTheorems.StuckForEver(Reached(events, m), RunSteps(events)[m..n], id);
  }

  // ----- what never goes backwards -----

  lemma {:induction false} RunExtends(events: seq<Event>, n: nat)
    requires n <= |events|
    ensures RunSteps(events[..n]) <= RunSteps(events)
    decreases |events|
  {
    if n == |events| {
      assert events[..n] == events;
    } else {
      var init := events[..|events| - 1];
      RunExtends(init, n);
      assert init[..n] == events[..n];
      assert RunSteps(init) <= RunSteps(events);
    }
  }

  /** Any state of a run is a younger version of every later one. */
  ghost predicate Older(db: Database, later: Database) {
    && AuthorityHistory.AuthorityGrows(db.authority, later.authority)
    && JournalHistory.JournalGrows(db.journal, later.journal)
    && RuntimeHistory.RuntimeGrows(db.runtime, later.runtime)
  }

  lemma OlderAlong(db: Database, steps: seq<Step>, m: nat)
    requires Inv(db) && Runs(db, steps) && m <= |steps|
    ensures Older(StateAt(db, steps, m), ApplyAll(db, steps))
  {
    SafeAt(db, steps, m);
    RunsFrom(db, steps, m, |steps|);
    assert steps[..|steps|] == steps;
    AuthorityHistory.RunGrows(StateAt(db, steps, m), steps[m..]);
    JournalHistory.RunGrows(StateAt(db, steps, m), steps[m..]);
    RuntimeHistory.RunGrows(StateAt(db, steps, m), steps[m..]);
  }

  /** Whatever the server had on record after some requests is still on record, and no younger, after more. */
  lemma NothingIsForgotten(events: seq<Event>, n: nat)
    requires n <= |events|
    ensures Older(RunState(events[..n]), RunState(events))
  {
    var m := |RunSteps(events[..n])|;
    RunExtends(events, n);
    assert RunSteps(events)[..m] == RunSteps(events[..n]);
    EveryRunIsSafe(events);
    EmptyInv();
    OlderAlong(EmptyDatabase, RunSteps(events), m);
  }

  // ----- key constraints -----

  lemma AcquireHitsKey(a: Authority, boot: BootDocument, fence: FenceDocument, leaseId: Id)
    requires AuthorityInv(a)
    ensures AcquireOutcome(a, boot, fence, leaseId).result == Err(SqlError) <==>
      CheckFencePair(a, boot, fence).None? && EpochCounter(a) < MAX_INTEGER && leaseId in a.history
  {
    AuthorityProofs.CounterIsMaxEpoch(a);
    assert ArchiveLease(a) == a;
    assert EpochCounter(a) + 1 !in Epochs(a.history);
  }

  lemma TickHitsNoKey(db: Database, id: Id, witnessId: Id, armed: FaultPoint)
    requires JournalInv(db.journal, db.authority)
    ensures TickOutcome(db, id, witnessId, armed).result != Err(SqlError)
  {
    if id in db.journal.operations { assert OperationInv(db.journal, db.authority, id); }
  }

  lemma DispatchHitsNoKey(db: Database, lease: LeaseDocument, operation: OperationRef, ticketId: Id, armed: FaultPoint)
    requires JournalInv(db.journal, db.authority)
    ensures DispatchOutcome(db, lease, operation, ticketId, armed).result != Err(SqlError)
  {
    if operation.id in db.journal.operations { assert OperationInv(db.journal, db.authority, operation.id); }
  }

  lemma RuntimeDispatchHitsNoKey(r: Runtime, request: RuntimeRequest, s: Session)
    requires r.queue <= r.operations.Keys && request.kind.DispatchRequest?
    ensures DispatchRuntime(r, request, s).result != Err(SqlError)
  {
  }

  lemma ServeHitsNoKey(db: Database, request: RuntimeRequest, s: Session, current: bool, witnessId: Id)
    requires db.runtime.queue <= db.runtime.operations.Keys
    ensures ServeSession(db, request, s, current, witnessId).result != Err(SqlError)
  {
    if request.kind.DispatchRequest? { RuntimeDispatchHitsNoKey(db.runtime, request, s); }
  }

  lemma RuntimeHitsNoKey(db: Database, request: RuntimeRequest, witnessId: Id)
    requires db.runtime.queue <= db.runtime.operations.Keys
    ensures RuntimeOutcome(db, request, witnessId).result != Err(SqlError)
  {
    var current := AuthorityCurrent(db.authority, request.instance, request.leaseId, request.epoch);
    if request.session in db.runtime.sessions {
      ServeHitsNoKey(db, request, db.runtime.sessions[request.session], current, witnessId);
    } else {
      ServeHitsNoKey(Apply(db, SaveSession(FreshSession(request))), request, FreshSession(request), current, witnessId);
    }
  }

  lemma PlainHandlersHitNoKey(db: Database, request: Request, draws: Draws, armed: FaultPoint)
    requires !request.LeaseAcquireRequest? && !request.OperationDispatchRequest? && !request.HostTick? && !request.RuntimeV3?
    ensures Admitted(db, request, draws, armed).result != Err(SqlError)
  {
  }

  /** The only table constraint a run can hit is a lease identifier drawn twice. */
  lemma OnlyLeaseIdsCollide(db: Database, request: Request, draws: Draws, armed: FaultPoint)
    requires Inv(db)
    ensures !request.LeaseAcquireRequest? ==> Admitted(db, request, draws, armed).result != Err(SqlError)
    ensures request.LeaseAcquireRequest? ==>
      (Admitted(db, request, draws, armed).result == Err(SqlError) <==>
         && CheckFencePair(db.authority, request.boot, request.fence).None?
         && EpochCounter(db.authority) < MAX_INTEGER && draws.leaseId in db.authority.history)
  {
    match request
    case LeaseAcquireRequest(boot, fence) => AcquireHitsKey(db.authority, boot, fence, draws.leaseId);
    case OperationDispatchRequest(lease, operation) => DispatchHitsNoKey(db, lease, operation, draws.ticketId, armed);
    case HostTick(id) => TickHitsNoKey(db, id, draws.witnessId, armed);
    case RuntimeV3(request) => RuntimeHitsNoKey(db, request, draws.witnessId);
    case _ => PlainHandlersHitNoKey(db, request, draws, armed);
  }
}
