/**
 What each runtime-v3 request answers and leaves behind in a safe state: every
 answer with its exact condition, every table after the request.
 */
module RuntimeAnswers {
  import opened Wrappers
  import opened Identity
  import opened HostRecords
  import opened HostCommits
  import opened HostReplies
  import opened LeaseHandlers
  import opened RuntimeHandlers
  import opened HostInvariants
  import opened HostRuns
  import HandlerProofs
  import HostReplays
  import LeaseAnswers
  import RuntimeProofs
  import RuntimeTheorems

  /** A request in range that names a session on record. */
  predicate Known(db: Database, request: RuntimeRequest) {
    0 <= request.epoch < 0x20_0000_0000_0000 && 0 <= request.generation < 0x20_0000_0000_0000 && request.session in db.runtime.sessions
  }

  predicate Current(db: Database, request: RuntimeRequest) {
    AuthorityCurrent(db.authority, request.instance, request.leaseId, request.epoch)
  }

  /** Under current authority, in the name of the session itself. */
  predicate Entitled(db: Database, request: RuntimeRequest) {
    && Known(db, request) && Current(db, request)
    && var s := db.runtime.sessions[request.session];
    s.instance == request.instance && s.leaseId == request.leaseId && s.epoch == request.epoch
  }

  lemma Served(db: Database, request: RuntimeRequest, witnessId: Id)
    requires RuntimeInv(db.runtime) && Known(db, request)
    ensures db.runtime.sessions[request.session].session == request.session
    ensures RuntimeOutcome(db, request, witnessId)
         == ServeSession(db, request, db.runtime.sessions[request.session], Current(db, request), witnessId)
  {
    HandlerProofs.SessionFound(db.runtime, request.session);
    RuntimeTheorems.KeyedSession(db.runtime, request.session);
  }

  // ----- reads -----

  /** A read of a known session answers with its observation, whoever asks and whether or not it is stopped. */
  lemma ReadAnswers(db: Database, request: RuntimeRequest, witnessId: Id)
    requires RuntimeInv(db.runtime) && Known(db, request)
    requires request.kind.StateRequest? || request.kind.LegalActionsRequest? || request.kind.ReobserveRequest?
    ensures RuntimeOutcome(db, request, witnessId)
         == Respond([], Observed(db.runtime.sessions[request.session].observation))
  {
    Served(db, request, witnessId);
  }

  // ----- work in flight under a stale lease -----

  /** The operation is in flight under exactly the session, instance, lease and epoch of the request. */
  predicate OwnInFlight(db: Database, request: RuntimeRequest, id: Id) {
    && id in db.runtime.operations
    && var op := db.runtime.operations[id];
    && (op.status.ADMITTED? || op.status.EXECUTING?) && op.instance == request.instance
    && op.session == request.session && op.leaseId == request.leaseId && op.epoch == request.epoch
  }

  /** Only this operation changed: it is uncertain and off the queue. */
  predicate Uncertained(db: Database, next: Database, id: Id) {
    && id in db.runtime.operations
    && next == db.(runtime := db.runtime.(
         operations := db.runtime.operations[id := db.runtime.operations[id].(status := RuntimeStatus.UNKNOWN)],
         queue := db.runtime.queue - {id}))
  }

  lemma MarkLeaves(db: Database, request: RuntimeRequest, id: Id)
    ensures var next := ApplyAll(db, MarkInContext(db.runtime, id, request));
      if OwnInFlight(db, request, id) then Uncertained(db, next, id) else next == db
  {
    RunsOne(db, MarkRuntimeUnknown(id));
  }

  lemma ServeStale(db: Database, request: RuntimeRequest, s: Session, witnessId: Id, id: Id)
    requires request.kind == WaitRequest(id) || request.kind == RecoverRequest(Reconcile(id))
    ensures ServeSession(db, request, s, false, witnessId)
         == Respond(MarkInContext(db.runtime, id, request), Uncertain(StaleLease, s.generation))
  {
  }

  lemma ServeStaleDispatch(db: Database, request: RuntimeRequest, s: Session, witnessId: Id)
    requires request.kind.DispatchRequest?
    ensures var id := request.kind.operation;
      ServeSession(db, request, s, false, witnessId)
      == Respond(MarkInContext(db.runtime, id, request),
                 if OwnInFlight(db, request, id) then Uncertain(StaleLease, s.generation)
                 else Rejected(id, StaleLease, s.observation))
  {
  }

  /** Without authority a wait or a reconciliation is told so, and its own work in flight becomes uncertain. */
  lemma StaleWait(db: Database, request: RuntimeRequest, witnessId: Id, id: Id)
    requires RuntimeInv(db.runtime) && Known(db, request) && !Current(db, request)
    requires request.kind == WaitRequest(id) || request.kind == RecoverRequest(Reconcile(id))
    ensures var outcome := RuntimeOutcome(db, request, witnessId);
      var next := ApplyAll(db, outcome.steps);
      && outcome.result == Ok(RuntimeAnswer(Uncertain(StaleLease, db.runtime.sessions[request.session].generation)))
      && if OwnInFlight(db, request, id) then Uncertained(db, next, id) else next == db
  {
    Served(db, request, witnessId);
    ServeStale(db, request, db.runtime.sessions[request.session], witnessId, id);
    MarkLeaves(db, request, id);
  }

  /** Without authority a dispatch is rejected, unless it repeats work in flight, which becomes uncertain. */
  lemma StaleDispatch(db: Database, request: RuntimeRequest, witnessId: Id)
    requires RuntimeInv(db.runtime) && Known(db, request) && !Current(db, request) && request.kind.DispatchRequest?
    ensures var outcome, id, s := RuntimeOutcome(db, request, witnessId), request.kind.operation, db.runtime.sessions[request.session];
      var next := ApplyAll(db, outcome.steps);
      if OwnInFlight(db, request, id)
      then outcome.result == Ok(RuntimeAnswer(Uncertain(StaleLease, s.generation))) && Uncertained(db, next, id)
      else outcome.result == Ok(RuntimeAnswer(Rejected(id, StaleLease, s.observation))) && next == db
  {
    Served(db, request, witnessId);
    ServeStaleDispatch(db, request, db.runtime.sessions[request.session], witnessId);
    MarkLeaves(db, request, request.kind.operation);
  }

  // ----- dispatch -----

  /** A dispatch under authority that does not name the session, or names a stopped one, is told so. */
  lemma DispatchOutside(db: Database, request: RuntimeRequest, witnessId: Id)
    requires RuntimeInv(db.runtime) && Known(db, request) && Current(db, request) && request.kind.DispatchRequest?
    requires !Entitled(db, request) || db.runtime.sessions[request.session].stopped
    ensures var s := db.runtime.sessions[request.session];
      RuntimeOutcome(db, request, witnessId)
      == Respond([], Uncertain(if Entitled(db, request) then EpisodeStopped else StaleLease, s.generation))
  {
    Served(db, request, witnessId);
  }

  lemma DispatchInside(db: Database, request: RuntimeRequest, witnessId: Id)
    requires RuntimeInv(db.runtime) && Entitled(db, request) && request.kind.DispatchRequest?
    requires !db.runtime.sessions[request.session].stopped
    ensures RuntimeOutcome(db, request, witnessId)
         == DispatchRuntime(db.runtime, request, db.runtime.sessions[request.session])
  {
    Served(db, request, witnessId);
  }

  /**
   Dispatching an operation that is on record: a conflict exactly when it belongs
   to another session or names another action, otherwise its own state.
   */
  lemma DispatchOfKnown(db: Database, request: RuntimeRequest, witnessId: Id)
    requires RuntimeInv(db.runtime) && Entitled(db, request) && request.kind.DispatchRequest?
    requires !db.runtime.sessions[request.session].stopped && request.kind.operation in db.runtime.operations
    ensures var s, id := db.runtime.sessions[request.session], request.kind.operation;
      var op := db.runtime.operations[id];
      && (op.status.SETTLED? ==> op.result.Some?)
      && RuntimeOutcome(db, request, witnessId) == Respond([],
           if op.session != request.session || op.action != request.kind.action then Rejected(id, OperationConflict, s.observation)
           else if op.status.SETTLED? then Completed(id, op.result.value)
           else if op.status.ADMITTED? then Accepted(id, s.observation)
           else Uncertain(OperationUnknown, s.generation))
  {
    var op := db.runtime.operations[request.kind.operation];
    assert RuntimeRowInv(request.kind.operation, op) && PlacedIn(db.runtime.sessions, db.runtime.queue, op);
    assert SessionInv(db.runtime.operations, request.session, db.runtime.sessions[request.session]);
    DispatchInside(db, request, witnessId);
  }

  lemma FirstUnresolved(r: Runtime, ids: set<Id>)
    requires RowsInv(r.operations) && ids <= r.operations.Keys
    ensures FirstOperation(r, ids).Ok? && (FirstOperation(r, ids).value.None? <==> ids == {})
    ensures FirstOperation(r, ids).value.Some? ==>
      FirstOperation(r, ids).value.value.operationId in ids
      && r.operations[FirstOperation(r, ids).value.value.operationId] == FirstOperation(r, ids).value.value
  {
    if ids != {} { assert RuntimeRowInv(Least(ids), r.operations[Least(ids)]); }
  }

  /** Dispatching a new operation: every rejection with its condition, in this order, and otherwise its admission. */
  lemma DispatchOfNew(db: Database, request: RuntimeRequest, witnessId: Id)
    requires RuntimeInv(db.runtime) && Entitled(db, request) && request.kind.DispatchRequest?
    requires !db.runtime.sessions[request.session].stopped && request.kind.operation !in db.runtime.operations
    ensures var r, s, id := db.runtime, db.runtime.sessions[request.session], request.kind.operation;
      RuntimeOutcome(db, request, witnessId) ==
      if request.generation != s.generation || request.kind.stateId != s.stateId
      then Respond([], Rejected(id, StaleGeneration, s.observation))
      else if request.kind.action !in s.legalActions then Respond([], Rejected(id, IllegalAction, s.observation))
      else if UnresolvedOfSession(r, s.session) != {} then Respond([], Rejected(id, ActiveOperation, s.observation))
      else if UnresolvedOfInstance(r, s.instance) != {} then Respond([], Rejected(id, ActiveSession, s.observation))
      else if |r.operations| >= 64 then Respond([], Rejected(id, RuntimeCapacity, s.observation))
      else Respond([AdmitRuntime(AdmittedOperation(s, id, request.kind.action))], Accepted(id, s.observation))
  {
    var r, s := db.runtime, db.runtime.sessions[request.session];
    FirstUnresolved(r, UnresolvedOfSession(r, s.session));
    FirstUnresolved(r, UnresolvedOfInstance(r, s.instance));
    DispatchInside(db, request, witnessId);
  }

  /** What an admission leaves: the action queued at the session's state and generation, nothing else changed. */
  lemma AdmissionLeaves(db: Database, s: Session, id: Id, action: LegalAction)
    ensures var next := Apply(db, AdmitRuntime(AdmittedOperation(s, id, action)));
      && id in next.runtime.operations
      && var op := next.runtime.operations[id];
      && next == db.(runtime := db.runtime.(operations := db.runtime.operations[id := op], queue := db.runtime.queue + {id}))
      && op.operationId == id && op.action == action && op.actionDigest == ActionDigest(action)
      && op.instance == s.instance && op.session == s.session && op.leaseId == s.leaseId && op.epoch == s.epoch
      && op.preStateId == s.stateId && op.preGeneration == s.generation
      && op.status.ADMITTED? && op.proof.None? && op.result.None?
  {
  }

  // ----- wait -----

  /** A wait under authority that does not name the session, or names a stopped one, is told so. */
  lemma WaitOutside(db: Database, request: RuntimeRequest, witnessId: Id)
    requires RuntimeInv(db.runtime) && Known(db, request) && Current(db, request) && request.kind.WaitRequest?
    requires !Entitled(db, request) || db.runtime.sessions[request.session].stopped
    ensures var s := db.runtime.sessions[request.session];
      RuntimeOutcome(db, request, witnessId)
      == Respond([], Uncertain(if Entitled(db, request) then EpisodeStopped else StaleLease, s.generation))
  {
    Served(db, request, witnessId);
  }

  /** A wait on anything but an admitted operation tells what is on record and commits nothing. */
  lemma WaitAnswers(db: Database, request: RuntimeRequest, witnessId: Id)
    requires RuntimeInv(db.runtime) && Entitled(db, request) && request.kind.WaitRequest?
    requires !db.runtime.sessions[request.session].stopped
    requires var id := request.kind.operation;
      !(id in db.runtime.operations && db.runtime.operations[id].session == request.session
        && db.runtime.operations[id].status.ADMITTED?)
    ensures var r, s, id := db.runtime, db.runtime.sessions[request.session], request.kind.operation;
      && (id in r.operations && r.operations[id].status.SETTLED? ==> r.operations[id].result.Some?)
      && RuntimeOutcome(db, request, witnessId) == Respond([],
           if id !in r.operations then Uncertain(OperationNotFound, s.generation)
           else if r.operations[id].session != request.session then Uncertain(StaleLease, s.generation)
           else if r.operations[id].status.SETTLED? then Completed(id, r.operations[id].result.value)
           else Uncertain(OperationUnknown, s.generation))
  {
    var id, s := request.kind.operation, db.runtime.sessions[request.session];
    Served(db, request, witnessId);
    HostReplays.ServeWait(db, request, s, true, witnessId);
    if id in db.runtime.operations {
      assert RuntimeRowInv(id, db.runtime.operations[id]);
      assert PlacedIn(db.runtime.sessions, db.runtime.queue, db.runtime.operations[id]);
    }
  }

  /** The settled action, and its session one generation on. */
  ghost predicate ActionSettled(db: Database, next: Database, id: Id, witnessId: Id) {
    && id in db.runtime.operations && id in next.runtime.operations
    && var op, after := db.runtime.operations[id], next.runtime.operations[id];
    && op.session in db.runtime.sessions && op.session in next.runtime.sessions
    && var s, t := db.runtime.sessions[op.session], next.runtime.sessions[op.session];
    && next == db.(runtime := Runtime(db.runtime.sessions[op.session := t], db.runtime.operations[id := after],
                                      db.runtime.queue - {id}))
    && after.proof.Some? && after.result.Some?
    && after == op.(status := RuntimeStatus.SETTLED, proof := after.proof, result := after.result)
    && SessionAdvanced(s, t, op) && ResultTells(after.result.value, s, t, op) && ProofTells(after.proof.value, t, op, witnessId)
  }

  /** The session is one generation on, one turn on after an end-turn, and names the action as its last. */
  predicate SessionAdvanced(s: Session, t: Session, op: RuntimeOperation) {
    && t == s.(generation := s.generation + 1, observation := t.observation,
               lastOperation := Some(op.operationId), lastAction := Some(op.action.actionId))
    && t.observation == Observation(s.observation.stateId, s.generation + 1,
                                    s.observation.turnIndex + if op.action.kind.END_TURN? then 1 else 0)
  }

  /** The result describes the session after the action, and the step that led there. */
  predicate ResultTells(result: RuntimeResult, s: Session, t: Session, op: RuntimeOperation) {
    && result.stateId == t.stateId && result.generation == t.generation && result.observation == t.observation
    && result.legalActions == t.legalActions
    && result.transition == Transition(s.generation, t.generation, t.stateId, op.action.kind)
  }

  /** The proof names the operation, its action, where it started and where it ended. */
  predicate ProofTells(proof: RuntimeWitness, t: Session, op: RuntimeOperation, witnessId: Id) {
    && proof.witnessId == witnessId && proof.operationId == op.operationId && proof.action == ActionDigest(op.action)
    && proof.source.HOST_GAME_THREAD? && proof.preStateId == op.preStateId && proof.preGeneration == op.preGeneration
    && proof.stateId == t.stateId && proof.generation == t.generation
    && proof.effect == RuntimeEffectDigest(op.operationId, ActionDigest(op.action), t.generation)
  }

  lemma SettlementLeaves(db: Database, id: Id, witnessId: Id)
    requires id in db.runtime.operations && RuntimeRowInv(id, db.runtime.operations[id])
    requires var op := db.runtime.operations[id];
      && op.session in db.runtime.sessions && db.runtime.sessions[op.session].session == op.session
      && 0 <= db.runtime.sessions[op.session].observation.turnIndex <= 65
    ensures var op := db.runtime.operations[id];
      var s := db.runtime.sessions[op.session];
      ActionSettled(db, Apply(Apply(db, BeginRuntime(id)),
                              SettleRuntime(id, ProofOf(s, op, witnessId), ResultOf(s, op.action), SessionAfter(s, s, op))),
                    id, witnessId)
  {
  }

  /** A wait on an admitted operation that can go on settles it. */
  lemma WaitSettles(db: Database, request: RuntimeRequest, witnessId: Id)
    requires RuntimeInv(db.runtime) && Entitled(db, request) && request.kind.WaitRequest?
    requires !db.runtime.sessions[request.session].stopped && request.kind.operation in db.runtime.operations
    requires db.runtime.sessions[request.session].generation < MAX_INTEGER
    requires db.runtime.operations[request.kind.operation].session == request.session
    requires db.runtime.operations[request.kind.operation].status.ADMITTED?
    ensures var outcome, id := RuntimeOutcome(db, request, witnessId), request.kind.operation;
      var next := ApplyAll(db, outcome.steps);
      && ActionSettled(db, next, id, witnessId) && outcome.action.Send?
      && outcome.result == Ok(RuntimeAnswer(Completed(id, next.runtime.operations[id].result.value)))
  {
    WaitCommits(db, request, witnessId);
    RuntimeProofs.TurnIndexBounded(db.runtime, request.session);
    RuntimeTheorems.KeyedSession(db.runtime, request.session);
    assert RuntimeRowInv(request.kind.operation, db.runtime.operations[request.kind.operation]);
    CommitsLeave(db, request.kind.operation, witnessId);
  }

  lemma CommitsLeave(db: Database, id: Id, witnessId: Id)
    requires id in db.runtime.operations && RuntimeRowInv(id, db.runtime.operations[id])
    requires var op := db.runtime.operations[id];
      && op.session in db.runtime.sessions && db.runtime.sessions[op.session].session == op.session
      && 0 <= db.runtime.sessions[op.session].observation.turnIndex <= 65
    ensures var op := db.runtime.operations[id];
      var s := db.runtime.sessions[op.session];
      var next := ApplyAll(db, [BeginRuntime(id), SettleRuntime(id, ProofOf(s, op, witnessId), ResultOf(s, op.action),
                                                                SessionAfter(s, s, op))]);
      ActionSettled(db, next, id, witnessId) && next.runtime.operations[id].result.value == ResultOf(s, op.action)
  {
    var op := db.runtime.operations[id];
    var s := db.runtime.sessions[op.session];
    AppliesTwo(db, BeginRuntime(id), SettleRuntime(id, ProofOf(s, op, witnessId), ResultOf(s, op.action), SessionAfter(s, s, op)));
    SettlementLeaves(db, id, witnessId);
    SettledResult(Apply(db, BeginRuntime(id)), id, ProofOf(s, op, witnessId), ResultOf(s, op.action), SessionAfter(s, s, op));
  }

  lemma SettledResult(db: Database, id: Id, proof: RuntimeWitness, result: RuntimeResult, row: Session)
    requires id in db.runtime.operations
    ensures var next := Apply(db, SettleRuntime(id, proof, result, row));
      id in next.runtime.operations && next.runtime.operations[id].result == Some(result)
  {
  }

  lemma WaitCommits(db: Database, request: RuntimeRequest, witnessId: Id)
    requires RuntimeInv(db.runtime) && Entitled(db, request) && request.kind.WaitRequest?
    requires !db.runtime.sessions[request.session].stopped && request.kind.operation in db.runtime.operations
    requires db.runtime.sessions[request.session].generation < MAX_INTEGER
    requires db.runtime.operations[request.kind.operation].session == request.session
    requires db.runtime.operations[request.kind.operation].status.ADMITTED?
    ensures var id, s := request.kind.operation, db.runtime.sessions[request.session];
      var op := db.runtime.operations[id];
      RuntimeOutcome(db, request, witnessId)
      == Respond([BeginRuntime(id), SettleRuntime(id, ProofOf(s, op, witnessId), ResultOf(s, op.action), SessionAfter(s, s, op))],
                 Completed(id, ResultOf(s, op.action)))
  {
    var id, s := request.kind.operation, db.runtime.sessions[request.session];
    Served(db, request, witnessId);
    HostReplays.ServeWait(db, request, s, true, witnessId);
    assert RuntimeRowInv(id, db.runtime.operations[id]);
    assert PlacedIn(db.runtime.sessions, db.runtime.queue, db.runtime.operations[id]);
    RuntimeTheorems.WaitOutcomes(db, request, s, witnessId);
  }

  // ----- recover -----

  /** Observing for recovery answers the session that is named in full, with or without authority. */
  lemma ObserveAnswers(db: Database, request: RuntimeRequest, witnessId: Id)
    requires RuntimeInv(db.runtime) && Known(db, request) && request.kind == RecoverRequest(ReobserveState)
    ensures var s := db.runtime.sessions[request.session];
      RuntimeOutcome(db, request, witnessId) == Respond([],
        if s.instance == request.instance && s.leaseId == request.leaseId && s.epoch == request.epoch
        then Recovered(s.observation) else Uncertain(StaleLease, s.generation))
  {
    Served(db, request, witnessId);
  }

  lemma ReconcileOnRecord(db: Database, request: RuntimeRequest, s: Session, id: Id)
    requires RowsInv(db.runtime.operations) && PlacesInv(db.runtime)
    requires s.session in db.runtime.sessions && s == db.runtime.sessions[s.session]
    ensures var r := db.runtime;
      && (id in r.operations && r.operations[id].status.SETTLED? ==> r.operations[id].result.Some?)
      && ReconcileRuntimeOperation(db, request, s, id) == Respond([],
           if id !in r.operations then Uncertain(OperationNotFound, s.generation)
           else if r.operations[id].session != s.session then Uncertain(StaleLease, s.generation)
           else if r.operations[id].status.SETTLED? then Completed(id, r.operations[id].result.value)
           else Uncertain(EffectWitnessMissing, s.generation))
  {
    if id in db.runtime.operations {
      assert RuntimeRowInv(id, db.runtime.operations[id]);
      assert PlacedIn(db.runtime.sessions, db.runtime.queue, db.runtime.operations[id]);
    }
  }

  lemma ServeReconcile(db: Database, request: RuntimeRequest, s: Session, witnessId: Id, id: Id)
    requires request.kind == RecoverRequest(Reconcile(id))
    ensures ServeSession(db, request, s, true, witnessId) == ReconcileRuntimeOperation(db, request, s, id)
  {
  }

  /** Reconciling under authority tells what is on record, whichever session the authority belongs to, and commits nothing. */
  lemma ReconcileAnswers(db: Database, request: RuntimeRequest, witnessId: Id, id: Id)
    requires RuntimeInv(db.runtime) && Known(db, request) && Current(db, request) && request.kind == RecoverRequest(Reconcile(id))
    ensures var r, s := db.runtime, db.runtime.sessions[request.session];
      && (id in r.operations && r.operations[id].status.SETTLED? ==> r.operations[id].result.Some?)
      && RuntimeOutcome(db, request, witnessId) == Respond([],
           if id !in r.operations then Uncertain(OperationNotFound, s.generation)
           else if r.operations[id].session != request.session then Uncertain(StaleLease, s.generation)
           else if r.operations[id].status.SETTLED? then Completed(id, r.operations[id].result.value)
           else Uncertain(EffectWitnessMissing, s.generation))
  {
    Served(db, request, witnessId);
    ServeReconcile(db, request, db.runtime.sessions[request.session], witnessId, id);
    ReconcileOnRecord(db, request, db.runtime.sessions[request.session], id);
  }

  /** A release or a stop is served exactly under authority in the name of the session itself. */
  lemma StopAnswers(db: Database, request: RuntimeRequest, witnessId: Id, release: bool)
    requires RuntimeInv(db.runtime) && Known(db, request)
    requires request.kind == RecoverRequest(if release then ReleaseLease else StopEpisode)
    ensures var s := db.runtime.sessions[request.session];
      RuntimeOutcome(db, request, witnessId) ==
      if Entitled(db, request) then Respond(StopSteps(s, release), Cancelled(s.observation))
      else Respond([], Uncertain(StaleLease, s.generation))
  {
    Served(db, request, witnessId);
  }

  /** The session is stopped, its work in flight is uncertain, none of it is queued, and nothing else changed. */
  ghost predicate Stopped(r: Runtime, q: Runtime, session: Id) {
    && session in r.sessions && q.sessions == r.sessions[session := r.sessions[session].(stopped := true)]
    && q.operations.Keys == r.operations.Keys
    && (forall id :: id in r.operations ==>
          q.operations[id] == if r.operations[id].session == session && InFlight(r.operations[id])
                              then r.operations[id].(status := RuntimeStatus.UNKNOWN) else r.operations[id])
    && (forall id :: id in q.queue <==> id in r.queue && !(id in r.operations && r.operations[id].session == session))
  }

  lemma StopRows(r: Runtime, s: Session)
    requires PlacesInv(r) && RowsInv(r.operations) && s.session in r.sessions && s == r.sessions[s.session]
    ensures var q := DequeueSessionRows(MarkSessionRows(r, s.session), s.session);
      Stopped(r, q.(sessions := q.sessions[s.session := s.(stopped := true)]), s.session)
  {
    forall id | id in r.queue && id in r.operations && r.operations[id].session == s.session
      ensures id !in DequeueSessionRows(MarkSessionRows(r, s.session), s.session).queue
    {
      assert RuntimeRowInv(id, r.operations[id]) && PlacedIn(r.sessions, r.queue, r.operations[id]);
    }
  }

  lemma ThreeSteps(db: Database, s: Session)
    ensures ApplyAll(db, StopSteps(s, false))
         == Apply(Apply(Apply(db, MarkSessionUnknown(s.session)), DequeueSessionUnknown(s.session)), SaveSession(s.(stopped := true)))
  {
    var m, d, v := MarkSessionUnknown(s.session), DequeueSessionUnknown(s.session), SaveSession(s.(stopped := true));
    RunsOne(db, m);
    RunsThen(db, [m], d);
    RunsThen(db, [m] + [d], v);
    assert StopSteps(s, false) == [m] + [d] + [v];
  }

  lemma MarkApplied(db: Database, session: Id)
    ensures Apply(db, MarkSessionUnknown(session)) == db.(runtime := MarkSessionRows(db.runtime, session))
  {
  }

  lemma DequeueApplied(db: Database, session: Id)
    ensures Apply(db, DequeueSessionUnknown(session)) == db.(runtime := DequeueSessionRows(db.runtime, session))
  {
  }

  lemma SaveApplied(db: Database, row: Session)
    ensures Apply(db, SaveSession(row))
         == db.(runtime := db.runtime.(sessions := db.runtime.sessions[row.session := row]))
  {
  }

  lemma StopApplied(db: Database, s: Session)
    ensures var q := DequeueSessionRows(MarkSessionRows(db.runtime, s.session), s.session);
      ApplyAll(db, StopSteps(s, false)) == db.(runtime := q.(sessions := q.sessions[s.session := s.(stopped := true)]))
  {
    ThreeSteps(db, s);
    MarkApplied(db, s.session);
    DequeueApplied(Apply(db, MarkSessionUnknown(s.session)), s.session);
    SaveApplied(Apply(Apply(db, MarkSessionUnknown(s.session)), DequeueSessionUnknown(s.session)), s.(stopped := true));
  }

  lemma StopLeavesRows(db: Database, s: Session)
    requires RowsInv(db.runtime.operations) && PlacesInv(db.runtime)
    requires s.session in db.runtime.sessions && s == db.runtime.sessions[s.session]
    ensures var next := ApplyAll(db, StopSteps(s, false));
      Stopped(db.runtime, next.runtime, s.session) && next.authority == db.authority && next.journal == db.journal
  {
    StopApplied(db, s);
    StopRows(db.runtime, s);
  }

  /** What a served stop leaves: the session stopped, and authority and journal untouched. */
  lemma StopLeaves(db: Database, request: RuntimeRequest, witnessId: Id)
    requires RuntimeInv(db.runtime) && Entitled(db, request) && request.kind == RecoverRequest(StopEpisode)
    ensures var outcome := RuntimeOutcome(db, request, witnessId);
      var next := ApplyAll(db, outcome.steps);
      && outcome.result == Ok(RuntimeAnswer(Cancelled(db.runtime.sessions[request.session].observation)))
      && Stopped(db.runtime, next.runtime, request.session) && next.authority == db.authority && next.journal == db.journal
  {
    Served(db, request, witnessId);
    StopAnswers(db, request, witnessId, false);
    StopLeavesRows(db, db.runtime.sessions[request.session]);
  }

  lemma RevokeApplied(db: Database, leaseId: Id, epoch: int)
    requires AuthorityInv(db.authority) && LeaseLive(db.authority)
    requires db.authority.lease.value.grant.leaseId == leaseId && db.authority.lease.value.grant.epoch == epoch
    ensures ApplyAll(db, [RevokeLease(leaseId, epoch)]) == db.(authority := RevokeCurrent(db.authority))
  {
    RunsOne(db, RevokeLease(leaseId, epoch));
    LeaseAnswers.RevokeIsCurrent(db.authority, leaseId, epoch);
  }

  lemma ReleaseSteps(db: Database, s: Session)
    requires AuthorityInv(db.authority) && AuthorityCurrent(db.authority, s.instance, s.leaseId, s.epoch)
    ensures ApplyAll(db, StopSteps(s, true)) == ApplyAll(db.(authority := RevokeCurrent(db.authority)), StopSteps(s, false))
  {
    RunsConcat(db, [RevokeLease(s.leaseId, s.epoch)], StopSteps(s, false));
    RevokeApplied(db, s.leaseId, s.epoch);
    HandlerProofs.StopsInOrder(s);
  }

  /**
   What a served release leaves: the session stopped and the lease revoked in both
   tables, so that no lease document is accepted and no runtime request has
   authority any more.
   */
  lemma ReleaseLeaves(db: Database, request: RuntimeRequest, witnessId: Id)
    requires AuthorityInv(db.authority) && RuntimeInv(db.runtime)
    requires Entitled(db, request) && request.kind == RecoverRequest(ReleaseLease)
    ensures var outcome := RuntimeOutcome(db, request, witnessId);
      var next := ApplyAll(db, outcome.steps);
      && outcome.result == Ok(RuntimeAnswer(Cancelled(db.runtime.sessions[request.session].observation)))
      && Stopped(db.runtime, next.runtime, request.session) && next.journal == db.journal
      && LeaseAnswers.LeaseRevoked(db.authority, next.authority) && next.authority.fence == db.authority.fence
      && (forall doc :: CheckLease(next.authority, doc).Some?)
      && (forall instance, leaseId, epoch :: !AuthorityCurrent(next.authority, instance, leaseId, epoch))
  {
    var s := db.runtime.sessions[request.session];
    Served(db, request, witnessId);
    StopAnswers(db, request, witnessId, true);
    ReleaseSteps(db, s);
    StopLeavesRows(db.(authority := RevokeCurrent(db.authority)), s);
    LeaseAnswers.RevocationOf(db.authority);
    LeaseAnswers.RevokedGrantsNothing(RevokeCurrent(db.authority));
  }

  /** None of a stopped session's operations is in flight or queued. */
  lemma StoppedIsIdle(r: Runtime, q: Runtime, session: Id, id: Id)
    requires Stopped(r, q, session) && id in q.operations && q.operations[id].session == session
    ensures q.sessions[session].stopped && !InFlight(q.operations[id]) && id !in q.queue
  {
  }

  // ----- first requests -----

  /** The session a barrier answers with: the unresolved operation's, else the open one's. */
  function Barring(r: Runtime, instance: Id): Id
    requires UnresolvedOfInstance(r, instance) != {} || ActiveSessions(r, instance) != {}
  {
    if UnresolvedOfInstance(r, instance) != {} then r.operations[Least(UnresolvedOfInstance(r, instance))].session
    else Least(ActiveSessions(r, instance))
  }

  lemma FirstActive(r: Runtime, instance: Id)
    requires ChainsInv(r) && |r.operations| <= MAX_RUNTIME_OPERATIONS
    ensures FirstSession(r, ActiveSessions(r, instance))
         == Ok(if ActiveSessions(r, instance) == {} then None else Some(r.sessions[Least(ActiveSessions(r, instance))]))
  {
    if ActiveSessions(r, instance) != {} { HandlerProofs.SessionFound(r, Least(ActiveSessions(r, instance))); }
  }

  lemma FirstUnresolvedIs(r: Runtime, instance: Id)
    requires RuntimeInv(r) && UnresolvedOfInstance(r, instance) != {}
    ensures var op := r.operations[Least(UnresolvedOfInstance(r, instance))];
      && FirstOperation(r, UnresolvedOfInstance(r, instance)) == Ok(Some(op))
      && op.session in r.sessions && LookupSession(r, op.session) == Ok(Some(r.sessions[op.session]))
  {
    var id := Least(UnresolvedOfInstance(r, instance));
    assert RuntimeRowInv(id, r.operations[id]) && PlacedIn(r.sessions, r.queue, r.operations[id]);
    HandlerProofs.SessionFound(r, r.operations[id].session);
  }

  lemma BarrierOf(r: Runtime, request: RuntimeRequest, current: bool)
    requires var unresolved := UnresolvedOfInstance(r, request.instance);
      unresolved != {} ==>
        var op := r.operations[Least(unresolved)];
        && FirstOperation(r, unresolved) == Ok(Some(op))
        && op.session in r.sessions && LookupSession(r, op.session) == Ok(Some(r.sessions[op.session]))
    requires FirstSession(r, ActiveSessions(r, request.instance))
          == Ok(if ActiveSessions(r, request.instance) == {} then None else Some(r.sessions[Least(ActiveSessions(r, request.instance))]))
    ensures var free := UnresolvedOfInstance(r, request.instance) == {} && ActiveSessions(r, request.instance) == {};
      && (!free ==> Barring(r, request.instance) in r.sessions)
      && SessionBarrier(r, request, current) ==
         if !current then Some(Fail(Stale(LeaseSubject)))
         else if free then None
         else Some(BarredBy(request, r.sessions[Barring(r, request.instance)]))
  {
  }

  lemma BarrierIs(r: Runtime, request: RuntimeRequest, current: bool)
    requires RuntimeInv(r)
    ensures var free := UnresolvedOfInstance(r, request.instance) == {} && ActiveSessions(r, request.instance) == {};
      && (!free ==> Barring(r, request.instance) in r.sessions)
      && SessionBarrier(r, request, current) ==
         if !current then Some(Fail(Stale(LeaseSubject)))
         else if free then None
         else Some(BarredBy(request, r.sessions[Barring(r, request.instance)]))
  {
    FirstActive(r, request.instance);
    if UnresolvedOfInstance(r, request.instance) != {} { FirstUnresolvedIs(r, request.instance); }
    BarrierOf(r, request, current);
  }

  /**
   The first request of an unknown session: refused without authority, barred by
   an unresolved operation or an open session of the instance, and otherwise it
   creates the session and is served by it.
   */
  lemma FirstRequest(db: Database, request: RuntimeRequest, witnessId: Id)
    requires RuntimeInv(db.runtime) && request.session !in db.runtime.sessions
    requires 0 <= request.epoch < 0x20_0000_0000_0000 && 0 <= request.generation < 0x20_0000_0000_0000
    ensures var r := db.runtime;
      var free := UnresolvedOfInstance(r, request.instance) == {} && ActiveSessions(r, request.instance) == {};
      && (!free ==> Barring(r, request.instance) in r.sessions)
      && var outcome := RuntimeOutcome(db, request, witnessId);
      if !Current(db, request) then outcome == Fail(Stale(LeaseSubject))
      else if !free && request.kind.DispatchRequest? then
        outcome == Respond([], Rejected(request.kind.operation, ActiveSession,
                                        r.sessions[Barring(r, request.instance)].observation))
      else if !free then outcome == Fail(Conflict)
      else
        var rest := ServeSession(Apply(db, SaveSession(FreshSession(request))), request, FreshSession(request), true, witnessId);
        outcome == rest.(steps := [SaveSession(FreshSession(request))] + rest.steps)
  {
    BarrierIs(db.runtime, request, Current(db, request));
  }

  /** The created session: named by the request, at its generation and the state it names, first turn, not stopped. */
  lemma FirstSessionRow(request: RuntimeRequest)
    ensures var s := FreshSession(request);
      && s.instance == request.instance && s.session == request.session && s.leaseId == request.leaseId
      && s.epoch == request.epoch && s.generation == request.generation && !s.stopped
      && s.observation == Observation(s.stateId, request.generation, 1) && s.legalActions == SyntheticLegalActions
      && s.lastOperation.None? && s.lastAction.None?
      && (request.kind.DispatchRequest? || request.kind.LegalActionsRequest? ==> s.stateId == request.kind.stateId)
      && (!request.kind.DispatchRequest? && !request.kind.LegalActionsRequest? ==> s.stateId == Id("synthetic-state"))
  {
  }

  /** A request out of range is refused. */
  lemma OutOfRange(db: Database, request: RuntimeRequest, witnessId: Id)
    requires !(0 <= request.epoch < 0x20_0000_0000_0000 && 0 <= request.generation < 0x20_0000_0000_0000)
    ensures RuntimeOutcome(db, request, witnessId) == Fail(Invalid)
  {
  }
}
