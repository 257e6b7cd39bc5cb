/**
 How many receipts a host can come to hold.  A dispatch counts only the receipts
 already written, so the 64 rows it reports as its capacity are no bound; what
 bounds the table is the number of receipts plus the dispatched operations that a
 tick would still execute.
 */
module ReceiptBounds {
  import opened Wrappers
  import opened Identity
  import opened HostRecords
  import opened HostCommits
  import opened HostReplies
  import opened JournalHandlers
  import opened RuntimeHandlers
  import opened HostInvariants
  import opened HostRuns
  import opened HostEvents
  import HandlerProofs
  import AuthorityHistory
  import AuthorityTheorems
  import JournalTheorems

  /** The operation is dispatched, before its deadline and under a live lease that fits: a tick executes it. */
  ghost predicate WouldSettle(db: Database, id: Id) {
    && JournalTheorems.IsDispatched(db, id) && db.authority.clock < db.journal.operations[id].ticketExpiresTick
    && JournalTheorems.Fits(db, id)
  }

  ghost function SettlingIds(db: Database): set<Id> { set id | id in db.journal.operations && WouldSettle(db, id) }

  /** The operations that have a receipt or can get one without another dispatch. */
  ghost function Candidates(db: Database): set<Id> { db.journal.receipts.Keys + SettlingIds(db) }

  // ----- one commit -----

  predicate Adds(step: Step) { step.RecordReceipt? || step.AdmitOperation? }

  function Added(step: Step): set<Id> { if Adds(step) then {step.id} else {} }

  lemma LeaseBefore(db: Database, step: Step)
    requires Enabled(db, step) && !RotatesAuthority(step) && LeaseLive(Apply(db, step).authority)
    ensures LeaseLive(db.authority)
    ensures var g, h := db.authority.lease.value.grant, Apply(db, step).authority.lease.value.grant;
      g.epoch == h.epoch && g.holder == h.holder
  {
  }

  lemma RotationSettlesNone(db: Database, step: Step, id: Id)
    requires JournalTheorems.IsDispatched(Apply(db, step), id)
    ensures !RotatesAuthority(step)
  {
    JournalTheorems.RotationUndispatches(db.journal, id);
  }

  lemma SettlingBefore(db: Database, step: Step, id: Id)
    requires AuthorityInv(db.authority) && Enabled(db, step) && WouldSettle(Apply(db, step), id)
    ensures WouldSettle(db, id) || id in Added(step)
  {
    JournalTheorems.DispatchStep(db, step, id);
    RotationSettlesNone(db, step, id);
    if id !in Added(step) {
      AuthorityHistory.StepGrows(db, step);
      LeaseBefore(db, step);
    }
  }

  lemma StepCandidates(db: Database, step: Step)
    requires AuthorityInv(db.authority) && Enabled(db, step)
    ensures Candidates(Apply(db, step)) <= Candidates(db) + Added(step)
  {
    forall id | id in Candidates(Apply(db, step)) ensures id in Candidates(db) + Added(step) {
      JournalTheorems.ReceiptStep(db, step, id);
      if id in SettlingIds(Apply(db, step)) { SettlingBefore(db, step, id); }
    }
  }

  // ----- one request -----

  /** Every operation these commits dispatch or give a receipt is among `ids`. */
  ghost predicate AddsWithin(steps: seq<Step>, ids: set<Id>) {
    forall i :: 0 <= i < |steps| ==> Added(steps[i]) <= ids
  }

  lemma {:induction false} RunCandidates(db: Database, steps: seq<Step>, ids: set<Id>)
    requires Inv(db) && Runs(db, steps) && AddsWithin(steps, ids)
    ensures Candidates(ApplyAll(db, steps)) <= Candidates(db) + ids
    decreases |steps|
  {
    if steps != [] {
      var init, last := steps[..|steps| - 1], steps[|steps| - 1];
      assert AddsWithin(init, ids);
      RunCandidates(db, init, ids);
      AuthorityTheorems.AuthoritySafe(db, init);
      StepCandidates(ApplyAll(db, init), last);
      assert Added(last) <= ids;
    }
  }

  lemma ServeAdds(db: Database, request: RuntimeRequest, s: Session, current: bool, witnessId: Id)
    ensures AddsWithin(ServeSession(db, request, s, current, witnessId).steps, {})
  {
  }

  lemma BarrierAdds(r: Runtime, request: RuntimeRequest, current: bool)
    ensures SessionBarrier(r, request, current).Some? ==> AddsWithin(SessionBarrier(r, request, current).value.steps, {})
  {
  }

  lemma RuntimeAdds(db: Database, request: RuntimeRequest, witnessId: Id)
    ensures AddsWithin(RuntimeOutcome(db, request, witnessId).steps, {})
  {
    var current := AuthorityCurrent(db.authority, request.instance, request.leaseId, request.epoch);
    BarrierAdds(db.runtime, request, current);
    if request.session in db.runtime.sessions {
      ServeAdds(db, request, db.runtime.sessions[request.session], current, witnessId);
    } else {
      ServeAdds(Apply(db, SaveSession(FreshSession(request))), request, FreshSession(request), current, witnessId);
    }
  }

  lemma QueuedTickAdds(db: Database, id: Id, witnessId: Id, armed: FaultPoint)
    requires id in db.journal.queue && id in db.journal.operations && OperationInv(db.journal, db.authority, id)
    ensures AddsWithin(TickOutcome(db, id, witnessId, armed).steps, if HandlerProofs.Executable(db, id) then {id} else {})
  {
    HandlerProofs.TickShape(db, id, witnessId, armed);
    ExecuteAdds(db.journal, id, db.journal.operations[id], db.journal.queue[id], witnessId, armed);
  }

  lemma TickAdds(db: Database, id: Id, witnessId: Id, armed: FaultPoint)
    requires JournalInv(db.journal, db.authority)
    ensures AddsWithin(TickOutcome(db, id, witnessId, armed).steps, SettlingIds(db))
  {
    if id in db.journal.queue && id in db.journal.operations {
      assert OperationInv(db.journal, db.authority, id);
      QueuedTickAdds(db, id, witnessId, armed);
      if HandlerProofs.Executable(db, id) { ExecutableSettles(db, id); }
    }
  }

  lemma ExecutableSettles(db: Database, id: Id)
    requires HandlerProofs.Executable(db, id) && OperationInv(db.journal, db.authority, id)
    ensures WouldSettle(db, id)
  {
  }

  lemma ExecuteAdds(j: Journal, id: Id, op: OperationRow, ticket: Ticket, witnessId: Id, armed: FaultPoint)
    ensures AddsWithin(ExecuteOutcome(j, id, op, ticket, witnessId, armed).steps, {id})
  {
  }

  lemma PlainAdds(db: Database, request: Request, draws: Draws, armed: FaultPoint)
    requires !request.OperationDispatchRequest? && !request.HostTick? && !request.RuntimeV3?
    ensures AddsWithin(Admitted(db, request, draws, armed).steps, {})
  {
  }

  lemma DispatchAdds(db: Database, lease: LeaseDocument, operation: OperationRef, ticketId: Id, armed: FaultPoint)
    ensures AddsWithin(DispatchOutcome(db, lease, operation, ticketId, armed).steps, {operation.id})
  {
  }

  /** The operation a request names for dispatch. */
  function Dispatching(request: Request): set<Id> {
    if request.OperationDispatchRequest? then {request.operation.id} else {}
  }

  lemma AdmittedAdds(db: Database, request: Request, draws: Draws, armed: FaultPoint)
    requires Inv(db)
    ensures AddsWithin(Admitted(db, request, draws, armed).steps, Candidates(db) + Dispatching(request))
  {
    match request
    case OperationDispatchRequest(lease, operation) => DispatchAdds(db, lease, operation, draws.ticketId, armed);
    case HostTick(id) => TickAdds(db, id, draws.witnessId, armed);
    case RuntimeV3(request) => RuntimeAdds(db, request, draws.witnessId);
    case _ => PlainAdds(db, request, draws, armed);
  }

  lemma EventAddsIf(db: Database, e: Event, ids: set<Id>)
    requires AddsWithin(Admitted(db, e.request, e.draws, e.armed).steps, ids)
    ensures AddsWithin(EventSteps(db, e), ids)
  {
    var steps := EventOutcome(db, e).steps;
    assert AddsWithin(steps, ids);
    CutAdds(steps, |steps|, ids);
    if e.cut.Some? && e.cut.value <= |steps| { CutAdds(steps, e.cut.value, ids); }
  }

  lemma CutAdds(steps: seq<Step>, n: nat, ids: set<Id>)
    requires AddsWithin(steps, ids) && n <= |steps|
    ensures AddsWithin(steps[..n] + [Reopen], ids) && steps[..|steps|] == steps
  {
  }

  /** Only a dispatch can add a candidate, and only the operation it names. */
  lemma EventCandidates(db: Database, e: Event)
    requires Inv(db)
    ensures Candidates(ApplyAll(db, EventSteps(db, e))) <= Candidates(db) + Dispatching(e.request)
  {
    AdmittedAdds(db, e.request, e.draws, e.armed);
    EventAddsIf(db, e, Candidates(db) + Dispatching(e.request));
    EventRuns(db, e);
    RunCandidates(db, EventSteps(db, e), Candidates(db) + Dispatching(e.request));
  }

  // ----- runs without dispatches -----

  ghost predicate NoDispatch(events: seq<Event>) {
    forall i :: 0 <= i < |events| ==> !events[i].request.OperationDispatchRequest?
  }

  lemma NextCandidates(events: seq<Event>, e: Event)
    ensures Candidates(RunState(events + [e])) <= Candidates(RunState(events)) + Dispatching(e.request)
  {
    RunExtended(events, e);
    EveryRunIsSafe(events);
    EventCandidates(RunState(events), e);
  }

  lemma LastEvent(events: seq<Event>, more: seq<Event>)
    requires more != []
    ensures events + more == events + more[..|more| - 1] + [more[|more| - 1]]
    ensures NoDispatch(more) ==> NoDispatch(more[..|more| - 1]) && Dispatching(more[|more| - 1].request) == {}
  {
  }

  lemma NoMore(events: seq<Event>)
    ensures events + [] == events && NoDispatch([])
  {
  }

  /** Without another dispatch no candidate is ever added, whatever else is requested and wherever crashes fall. */
  lemma {:induction false} NoNewCandidates(events: seq<Event>, more: seq<Event>)
    requires NoDispatch(more)
    ensures Candidates(RunState(events + more)) <= Candidates(RunState(events))
    decreases |more|
  {
    if more == [] {
      NoMore(events);
    } else {
      LastEvent(events, more);
      NoNewCandidates(events, more[..|more| - 1]);
      NextCandidates(events + more[..|more| - 1], more[|more| - 1]);
    }
  }

  // ----- every candidate can get its receipt -----

  function Tick(id: Id): Event {
    Event(RECOVERY_RECONCILE, HostTick(id), Draws(id, id, id, id, id), NoFault, None)
  }

  lemma TickSettles(db: Database, id: Id, witnessId: Id)
    requires AuthorityInv(db.authority) && JournalInv(db.journal, db.authority) && WouldSettle(db, id)
    ensures id in db.journal.queue
    ensures TickOutcome(db, id, witnessId, NoFault)
         == Say(TickCommits(id, EffectWitnessFor(id, db.journal.operations[id], db.journal.queue[id], witnessId),
                            db.journal.operations[id].payload), Answer(Status.SETTLED))
  {
    JournalTheorems.TickExecutesIff(db, id, witnessId);
  }

  lemma TickedState(db: Database, id: Id, w: Witness, payload: Digest)
    requires id in db.journal.operations
    ensures var next := ApplyAll(db, TickCommits(id, w, payload));
      && next.authority == db.authority && next.journal.receipts.Keys == db.journal.receipts.Keys + {id}
      && id in next.journal.operations && next.journal.operations[id].state.SETTLED?
      && next.journal.operations.Keys == db.journal.operations.Keys
      && forall other :: other in db.journal.operations && other != id ==>
           next.journal.operations[other] == db.journal.operations[other]
  {
    var steps := TickCommits(id, w, payload);
    AppliesFour(db, steps[0], steps[1], steps[2], steps[3]);
  }

  lemma TickMovesCandidate(db: Database, id: Id, w: Witness, payload: Digest)
    requires WouldSettle(db, id)
    ensures var next := ApplyAll(db, TickCommits(id, w, payload));
      SettlingIds(next) == SettlingIds(db) - {id} && Candidates(next) == Candidates(db)
  {
    TickedState(db, id, w, payload);
  }

  lemma TickSteps(db: Database, id: Id)
    ensures TickOutcome(db, id, id, NoFault).action.Send? ==> EventSteps(db, Tick(id)) == TickOutcome(db, id, id, NoFault).steps
  {
  }

  lemma TickEvent(db: Database, id: Id)
    requires AuthorityInv(db.authority) && JournalInv(db.journal, db.authority) && WouldSettle(db, id)
    ensures var next := ApplyAll(db, EventSteps(db, Tick(id)));
      SettlingIds(next) == SettlingIds(db) - {id} && Candidates(next) == Candidates(db)
  {
    TickSettles(db, id, id);
    TickSteps(db, id);
    TickMovesCandidate(db, id, EffectWitnessFor(id, db.journal.operations[id], db.journal.queue[id], id),
                       db.journal.operations[id].payload);
  }

  lemma TickNext(events: seq<Event>, id: Id)
    requires WouldSettle(RunState(events), id)
    ensures SettlingIds(RunState(events + [Tick(id)])) == SettlingIds(RunState(events)) - {id}
    ensures Candidates(RunState(events + [Tick(id)])) == Candidates(RunState(events))
  {
    EveryRunIsSafe(events);
    TickEvent(RunState(events), id);
    RunExtended(events, Tick(id));
  }

  lemma TickFirst(events: seq<Event>, id: Id, rest: seq<Event>)
    requires NoDispatch(rest)
    ensures NoDispatch([Tick(id)] + rest) && events + ([Tick(id)] + rest) == events + [Tick(id)] + rest
  {
  }

  /** Ticking every candidate gives each of them its receipt. */
  lemma {:induction false} CandidatesAreReached(events: seq<Event>) returns (more: seq<Event>)
    ensures NoDispatch(more)
    ensures RunState(events + more).journal.receipts.Keys == Candidates(RunState(events))
    decreases SettlingIds(RunState(events))
  {
    if SettlingIds(RunState(events)) == {} {
      more := [];
      NoMore(events);
    } else {
      var id :| id in SettlingIds(RunState(events));
      TickNext(events, id);
      var rest := CandidatesAreReached(events + [Tick(id)]);
      more := [Tick(id)] + rest;
      TickFirst(events, id, rest);
    }
  }

  /** The receipts table stays within a limit in every continuation. */
  ghost predicate StaysWithin(events: seq<Event>, limit: int) {
    forall more | NoDispatch(more) :: |RunState(events + more).journal.receipts| <= limit
  }

  lemma KeysCount<T>(m: map<Id, T>)
    ensures |m| == |m.Keys|
  {
  }

  lemma {:induction false} SubsetCount(a: set<Id>, b: set<Id>)
    requires a <= b
    ensures |a| <= |b|
    decreases |a|
  {
    if a != {} {
      var x :| x in a;
      SubsetCount(a - {x}, b - {x});
    }
  }

  /**
   Without another dispatch the receipts table stays within a limit, whatever is
   requested and wherever crashes fall, if and only if the candidates do.
   */
  lemma WithinIff(events: seq<Event>, limit: int)
    ensures StaysWithin(events, limit) <==> |Candidates(RunState(events))| <= limit
  {
    if StaysWithin(events, limit) {
      var more := CandidatesAreReached(events);
      assert |RunState(events + more).journal.receipts| <= limit;
      KeysCount(RunState(events + more).journal.receipts);
    }
    if |Candidates(RunState(events))| <= limit {
      forall more | NoDispatch(more) ensures |RunState(events + more).journal.receipts| <= limit {
        NoNewCandidates(events, more);
        SubsetCount(RunState(events + more).journal.receipts.Keys, Candidates(RunState(events)));
        KeysCount(RunState(events + more).journal.receipts);
      }
    }
  }

  // ----- dispatches -----

  /** Every dispatch of the run was requested while there was room for all candidates and one more. */
  ghost predicate Guarded(events: seq<Event>, limit: int) {
    forall n :: 0 <= n < |events| && events[n].request.OperationDispatchRequest? ==>
      |Candidates(RunState(events[..n]))| < limit
  }

  lemma OneMoreCount(a: set<Id>, b: set<Id>, request: Request)
    requires a <= b + Dispatching(request)
    ensures |a| <= |b| + if request.OperationDispatchRequest? then 1 else 0
  {
    SubsetCount(a, b + Dispatching(request));
  }

  lemma GuardedBefore(events: seq<Event>, limit: int)
    requires events != [] && Guarded(events, limit)
    ensures Guarded(events[..|events| - 1], limit)
    ensures events[|events| - 1].request.OperationDispatchRequest? ==>
      |Candidates(RunState(events[..|events| - 1]))| < limit
    ensures events == events[..|events| - 1] + [events[|events| - 1]]
  {
    var init := events[..|events| - 1];
    forall n | 0 <= n < |init| && init[n].request.OperationDispatchRequest?
      ensures |Candidates(RunState(init[..n]))| < limit
    {
      assert init[..n] == events[..n];
    }
  }

  lemma NoCandidatesYet()
    ensures Candidates(RunState([])) == {}
  {
    RunsOne(EmptyDatabase, Reopen);
  }

  lemma ReceiptsAreCandidates(db: Database)
    ensures |db.journal.receipts| <= |Candidates(db)|
  {
    SubsetCount(db.journal.receipts.Keys, Candidates(db));
    KeysCount(db.journal.receipts);
  }

  /** A caller that dispatches only below the limit never sees more receipts than the limit. */
  lemma {:induction false} GuardedStaysWithin(events: seq<Event>, limit: nat)
    requires Guarded(events, limit)
    ensures |Candidates(RunState(events))| <= limit && |RunState(events).journal.receipts| <= limit
    decreases |events|
  {
    if events == [] {
      NoCandidatesYet();
    } else {
      var init, last := events[..|events| - 1], events[|events| - 1];
      GuardedBefore(events, limit);
      GuardedStaysWithin(init, limit);
      NextCandidates(init, last);
      OneMoreCount(Candidates(RunState(events)), Candidates(RunState(init)), last.request);
    }
    ReceiptsAreCandidates(RunState(events));
  }

  /** `next` differs from `db` in one operation only. */
  ghost predicate SameButFor(db: Database, next: Database, id: Id) {
    && next.authority == db.authority && next.journal.receipts == db.journal.receipts
    && id in db.journal.operations && next.journal.operations.Keys == db.journal.operations.Keys
    && forall other :: other in db.journal.operations && other != id ==>
         next.journal.operations[other] == db.journal.operations[other]
  }

  lemma OthersSettleAlike(db: Database, next: Database, id: Id, other: Id)
    requires SameButFor(db, next, id) && other != id
    ensures other in Candidates(next) <==> other in Candidates(db)
  {
  }

  lemma IntentIsNoCandidate(db: Database, id: Id)
    requires JournalInv(db.journal, db.authority) && id in db.journal.operations
    requires db.journal.operations[id].state.INTENT_RECORDED?
    ensures id !in Candidates(db)
  {
    assert OperationInv(db.journal, db.authority, id);
  }

  lemma AdmittedState(db: Database, step: Step)
    requires AuthorityInv(db.authority) && Enabled(db, step) && step.AdmitOperation?
    ensures step.id in db.journal.operations && db.journal.operations[step.id].state.INTENT_RECORDED?
    ensures SameButFor(db, Apply(db, step), step.id)
    ensures WouldSettle(Apply(db, step), step.id) <==> JournalTheorems.Fits(db, step.id)
  {
    JournalTheorems.AdmissionDeadline(db, step);
  }

  lemma AdmissionCandidates(db: Database, step: Step)
    requires AuthorityInv(db.authority) && JournalInv(db.journal, db.authority) && Enabled(db, step) && step.AdmitOperation?
    ensures step.id !in Candidates(db)
    ensures Candidates(Apply(db, step)) == WithFitting(Candidates(db), step.id, JournalTheorems.Fits(db, step.id))
  {
    var next := Apply(db, step);
    AdmittedState(db, step);
    IntentIsNoCandidate(db, step.id);
    CandidatesButFor(db, next, step.id);
  }

  lemma CandidatesButFor(db: Database, next: Database, id: Id)
    requires SameButFor(db, next, id) && id !in Candidates(db)
    ensures Candidates(next) == WithFitting(Candidates(db), id, WouldSettle(next, id))
  {
    forall other | other != id ensures other in Candidates(next) <==> other in Candidates(db) {
      OthersSettleAlike(db, next, id, other);
    }
  }

  function WithFitting(ids: set<Id>, id: Id, fits: bool): set<Id> { if fits then ids + {id} else ids }

  lemma WithFittingCount(ids: set<Id>, id: Id, fits: bool)
    requires id !in ids
    ensures |WithFitting(ids, id, fits)| == |ids| + if fits then 1 else 0
  {
  }

  lemma DispatchCommit(db: Database, lease: LeaseDocument, operation: OperationRef, ticketId: Id, armed: FaultPoint)
    requires DispatchOutcome(db, lease, operation, ticketId, armed).steps != []
    ensures var steps := DispatchOutcome(db, lease, operation, ticketId, armed).steps;
      |steps| == 1 && steps == [steps[0]] && steps[0].AdmitOperation? && steps[0].id == operation.id
  {
  }

  lemma EventCommit(db: Database, e: Event)
    requires e.request.OperationDispatchRequest? && EventOutcome(db, e).steps != []
    ensures var steps := EventOutcome(db, e).steps;
      |steps| == 1 && steps == [steps[0]] && steps[0].AdmitOperation? && steps[0].id == e.request.operation.id
  {
    DispatchCommit(db, e.request.lease, e.request.operation, e.draws.ticketId, e.armed);
  }

  lemma OneCommitCandidates(db: Database, step: Step)
    requires Inv(db) && Runs(db, [step]) && step.AdmitOperation?
    ensures step.id !in Candidates(db)
    ensures Candidates(ApplyAll(db, [step])) == WithFitting(Candidates(db), step.id, JournalTheorems.Fits(db, step.id))
  {
    RunsOne(db, step);
    AdmissionCandidates(db, step);
  }

  /** A dispatch that is admitted and answered adds its operation to the candidates exactly when the lease fits. */
  lemma DispatchEvent(db: Database, e: Event)
    requires Inv(db) && e.request.OperationDispatchRequest?
    requires EventSteps(db, e) == EventOutcome(db, e).steps != []
    ensures e.request.operation.id !in Candidates(db)
    ensures Candidates(ApplyAll(db, EventSteps(db, e)))
         == WithFitting(Candidates(db), e.request.operation.id, JournalTheorems.Fits(db, e.request.operation.id))
  {
    EventRuns(db, e);
    EventCommit(db, e);
    OneCommitCandidates(db, EventSteps(db, e)[0]);
  }

  /**
   The exact condition a caller can check before a dispatch: once it is admitted,
   the receipts table stays within a limit until the next dispatch if and only if
   the candidates of the moment, and the operation itself when the lease fits it,
   do not exceed the limit.
   */
  lemma DispatchStaysWithinIff(events: seq<Event>, e: Event, limit: int)
    requires e.request.OperationDispatchRequest?
    requires EventSteps(RunState(events), e) == EventOutcome(RunState(events), e).steps != []
    ensures StaysWithin(events + [e], limit) <==>
      |Candidates(RunState(events))| + (if JournalTheorems.Fits(RunState(events), e.request.operation.id) then 1 else 0) <= limit
  {
    EveryRunIsSafe(events);
    DispatchEvent(RunState(events), e);
    WithFittingCount(Candidates(RunState(events)), e.request.operation.id,
                     JournalTheorems.Fits(RunState(events), e.request.operation.id));
    RunExtended(events, e);
    WithinIff(events + [e], limit);
  }
}
