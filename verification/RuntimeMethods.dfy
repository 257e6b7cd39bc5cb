/** The runtime-v3 handlers, statement by statement, against their specification. */
module RuntimeMethods {
  import opened Wrappers
  import opened Identity
  import opened FixtureClock
  import opened HostRecords
  import opened HostCommits
  import opened HostReplies
  import opened RuntimeHandlers
  import opened HostStore
  import LeaseMethods
  import JournalMethods

  /** The identifier column of every row is its primary key. */
  predicate Keyed(r: Runtime) {
    && (forall id :: id in r.operations ==> r.operations[id].operationId == id)
    && (forall id :: id in r.sessions ==> r.sessions[id].session == id)
  }

  /** Marks an operation uncertain and dequeues it if it is in flight under the given context. */
  method MarkForContext(host: DurableHost, id: Id, request: RuntimeRequest) returns (changed: bool)
    modifies host
    ensures changed == MarkableInContext(old(host.Tables()).runtime, id, request)
    ensures host.Tables() == if changed then Apply(old(host.Tables()), MarkRuntimeUnknown(id)) else old(host.Tables())
    ensures host.committed == old(host.committed) + if changed then [MarkRuntimeUnknown(id)] else []
  {
    var tx := host.Tables();
    changed := false;
    if id in tx.runtime.operations {
      var op := tx.runtime.operations[id];
      if op.instance == request.instance && op.session == request.session
         && op.leaseId == request.leaseId && op.epoch == request.epoch && InFlight(op)
      {
        tx := tx.(runtime := tx.runtime.(operations := tx.runtime.operations[id := op.(status := RuntimeStatus.UNKNOWN)]));
        tx := tx.(runtime := tx.runtime.(queue := tx.runtime.queue - {id}));
        host.Commit(tx, MarkRuntimeUnknown(id));
        changed := true;
      }
    }
  }

  method MarkUnknown(host: DurableHost, op: RuntimeOperation)
    requires op.operationId in host.runtimeOperations && host.runtimeOperations[op.operationId] == op && InFlight(op)
    modifies host
    ensures host.Tables() == Apply(old(host.Tables()), MarkRuntimeUnknown(op.operationId))
    ensures host.committed == old(host.committed) + [MarkRuntimeUnknown(op.operationId)]
  {
    var _ := MarkForContext(host, op.operationId,
                            RuntimeRequest(StateRequest, op.instance, op.session, op.leaseId, op.epoch, 0));
  }

  method DispatchAction(host: DurableHost, request: RuntimeRequest, s: Session)
    returns (result: Result<Reply, FixtureError>, action: ResponseAction)
    requires request.kind.DispatchRequest?
    modifies host
    ensures host.Did(old(host.Tables()), old(host.committed),
                     DispatchRuntime(old(host.Tables()).runtime, request, s), result, action)
  {
    action := Send;
    var r := host.Tables().runtime;
    var DispatchRequest(id, stateId, chosen) := request.kind;
    var existing := LookupOperation(r, id);
    if existing.Err? { return Err(existing.error), action; }
    if existing.value.Some? {
      var op := existing.value.value;
      if !BelongsTo(op, s) || op.actionDigest != ActionDigest(chosen) || op.action != chosen {
        return Ok(RuntimeAnswer(Rejected(id, OperationConflict, s.observation))), action;
      }
      var answer := OperationAnswer(request.kind, s, op);
      if answer.Err? { return Err(answer.error), action; }
      return Ok(RuntimeAnswer(answer.value)), action;
    }
    if request.generation != s.generation || stateId != s.stateId {
      return Ok(RuntimeAnswer(Rejected(id, StaleGeneration, s.observation))), action;
    }
    if chosen !in s.legalActions { return Ok(RuntimeAnswer(Rejected(id, IllegalAction, s.observation))), action; }
    var active := FirstOperation(r, UnresolvedOfSession(r, s.session));
    if active.Err? { return Err(active.error), action; }
    if active.value.Some? { return Ok(RuntimeAnswer(Rejected(id, ActiveOperation, s.observation))), action; }
    var barrier := FirstOperation(r, UnresolvedOfInstance(r, s.instance));
    if barrier.Err? { return Err(barrier.error), action; }
    if barrier.value.Some? && barrier.value.value.operationId != id {
      return Ok(RuntimeAnswer(Rejected(id, ActiveSession, s.observation))), action;
    }
    if |host.runtimeOperations| >= MAX_RUNTIME_OPERATIONS {
      return Ok(RuntimeAnswer(Rejected(id, RuntimeCapacity, s.observation))), action;
    }
    var op := RuntimeOperation(id, s.instance, s.session, s.leaseId, s.epoch, chosen, ActionDigest(chosen),
                               s.stateId, s.generation, ADMITTED, None, None);
    var tx := host.Tables();
    tx := tx.(runtime := tx.runtime.(operations := tx.runtime.operations[id := op]));
    if id in tx.runtime.queue { return Err(SqlError), action; }
    tx := tx.(runtime := tx.runtime.(queue := tx.runtime.queue + {id}));
    ApplyOne(host.Tables(), AdmitRuntime(op));
    host.Commit(tx, AdmitRuntime(op));
    result := Ok(RuntimeAnswer(Accepted(id, s.observation)));
  }

  /** The settlement transaction: operation, session and queue together. */
  method SettleExecuted(host: DurableHost, s: Session, op: RuntimeOperation, proof: RuntimeWitness, outcome: RuntimeResult)
    returns (done: bool)
    requires op.operationId in host.runtimeOperations && host.runtimeOperations[op.operationId].status.EXECUTING?
    modifies host
    ensures done == (&& s.session in old(host.runtimeSessions)
                     && old(host.runtimeSessions)[s.session].generation == op.preGeneration
                     && old(host.runtimeSessions)[s.session].stateId == op.preStateId
                     && old(host.runtimeSessions)[s.session].session == s.session)
    ensures done ==>
      var step := SettleRuntime(op.operationId, proof, outcome, SessionAfter(old(host.runtimeSessions)[s.session], s, op));
      host.Tables() == Apply(old(host.Tables()), step) && host.committed == old(host.committed) + [step]
    ensures !done ==> host.Tables() == old(host.Tables()) && host.committed == old(host.committed)
  {
    var id, tx := op.operationId, host.Tables();
    tx := tx.(runtime := tx.runtime.(operations := tx.runtime.operations[id := tx.runtime.operations[id].(
      status := RuntimeStatus.SETTLED, proof := Some(proof), result := Some(outcome))]));
    if s.session !in tx.runtime.sessions { return false; }
    var row := tx.runtime.sessions[s.session];
    if row.session != s.session || row.generation != op.preGeneration || row.stateId != op.preStateId { return false; }
    var next := row.(generation := s.generation + 1, observation := NextObservation(s, op.action),
                     lastOperation := Some(id), lastAction := Some(op.action.actionId));
    tx := tx.(runtime := tx.runtime.(sessions := tx.runtime.sessions[s.session := next]));
    tx := tx.(runtime := tx.runtime.(queue := tx.runtime.queue - {id}));
    host.Commit(tx, SettleRuntime(id, proof, outcome, next));
    done := true;
  }

  method RejectExecuting(host: DurableHost, id: Id)
    requires id in host.runtimeOperations && host.runtimeOperations[id].status.EXECUTING?
    modifies host
    ensures host.Tables() == Apply(Apply(old(host.Tables()), RejectRuntime(id)), DequeueRuntime(id))
    ensures host.committed == old(host.committed) + [RejectRuntime(id), DequeueRuntime(id)]
  {
    host.runtimeOperations := host.runtimeOperations[id := host.runtimeOperations[id].(status := RuntimeStatus.REJECTED)];
    host.committed := host.committed + [RejectRuntime(id)];
    host.runtimeQueue := host.runtimeQueue - {id};
    host.committed := host.committed + [DequeueRuntime(id)];
  }

  lemma ApplyThree(db: Database, a: Step, b: Step, c: Step)
    ensures ApplyAll(db, [a, b, c]) == Apply(Apply(Apply(db, a), b), c)
  {
    ApplyOne(db, a);
    ApplyMore(db, [a], b);
    ApplyMore(db, [a] + [b], c);
    assert [a, b, c] == [a] + [b] + [c];
  }

  method BeginExecuting(host: DurableHost, op: RuntimeOperation)
    requires op.operationId in host.runtimeOperations && host.runtimeOperations[op.operationId] == op
    modifies host
    ensures host.Tables() == Apply(old(host.Tables()), BeginRuntime(op.operationId))
    ensures host.runtimeOperations == old(host.runtimeOperations)[op.operationId := op.(status := EXECUTING)]
    ensures host.runtimeSessions == old(host.runtimeSessions)
    ensures host.committed == old(host.committed) + [BeginRuntime(op.operationId)]
  {
    host.runtimeOperations := host.runtimeOperations[op.operationId := op.(status := EXECUTING)];
    host.committed := host.committed + [BeginRuntime(op.operationId)];
  }

  lemma Regroup(log: seq<Step>, first: Step, rest: seq<Step>)
    ensures log + [first] + rest == log + ([first] + rest)
    ensures |rest| == 1 ==> [first] + rest == [first, rest[0]]
    ensures |rest| == 2 ==> [first] + rest == [first, rest[0], rest[1]]
  {
  }

  method BuildResult(s: Session, op: RuntimeOperation, witnessId: Id) returns (outcome: RuntimeResult, proof: RuntimeWitness)
    ensures outcome == ResultOf(s, op.action) && proof == ProofOf(s, op, witnessId)
  {
    var next, turn := s.generation + 1, s.observation.turnIndex;
    if op.action.kind.END_TURN? { turn := SaturatingAdd(turn, 1); }
    outcome := RuntimeResult(s.stateId, next, Observation(s.observation.stateId, next, turn), s.legalActions,
                             Transition(s.generation, next, s.stateId, op.action.kind));
    proof := RuntimeWitness(witnessId, op.operationId, op.actionDigest, HOST_GAME_THREAD, op.preStateId, op.preGeneration,
                            s.stateId, next, RuntimeEffectDigest(op.operationId, op.actionDigest, next));
  }

  method Execute(host: DurableHost, s: Session, op: RuntimeOperation, witnessId: Id)
    returns (result: Result<Reply, FixtureError>, action: ResponseAction)
    requires Keyed(host.Tables().runtime) && op.status.ADMITTED?
    requires op.operationId in host.runtimeOperations && host.runtimeOperations[op.operationId] == op
    modifies host
    ensures host.Did(old(host.Tables()), old(host.committed),
                     ExecuteRuntime(old(host.Tables()).runtime, s, op, witnessId), result, action)
  {
    action := Send;
    var id := op.operationId;
    ghost var before, log := host.Tables(), host.committed;
    ApplyOne(before, BeginRuntime(id));
    BeginExecuting(host, op);
    if op.action !in s.legalActions {
      ApplyThree(before, BeginRuntime(id), RejectRuntime(id), DequeueRuntime(id));
      RejectExecuting(host, id);
      Regroup(log, BeginRuntime(id), [RejectRuntime(id), DequeueRuntime(id)]);
      return Ok(RuntimeAnswer(Rejected(id, PrestateChanged, s.observation))), action;
    }
    var outcome, proof := BuildResult(s, op, witnessId);
    if s.generation + 1 > I64_MAX || !ValidObservation(outcome.observation) || !ValidTransition(outcome.transition)
       || !ValidRuntimeWitness(proof, id, op.actionDigest)
    {
      return Err(Invalid), action;
    }
    var done := SettleExecuted(host, s, op, proof, outcome);
    if !done { return Err(Conflict), action; }
    ghost var settle := SettleRuntime(id, proof, outcome, SessionAfter(before.runtime.sessions[s.session], s, op));
    JournalMethods.ApplyTwo(before, BeginRuntime(id), settle);
    Regroup(log, BeginRuntime(id), [settle]);
    var settled := host.runtimeOperations[id];
    var refusal := CheckRuntimeOperation(settled);
    if refusal.Some? { return Err(refusal.value), action; }
    result := Ok(RuntimeAnswer(Completed(id, outcome)));
  }

  method DrainOperation(host: DurableHost, request: RuntimeRequest, s: Session, op: RuntimeOperation, witnessId: Id)
    returns (result: Result<Reply, FixtureError>, action: ResponseAction)
    requires Keyed(host.Tables().runtime)
    requires op.operationId in host.runtimeOperations && host.runtimeOperations[op.operationId] == op
    modifies host
    ensures host.Did(old(host.Tables()), old(host.committed),
                     Drain(old(host.Tables()), request, s, op, witnessId), result, action)
  {
    action := Send;
    if !op.status.ADMITTED? {
      var answer := OperationAnswer(request.kind, s, op);
      if answer.Err? { return Err(answer.error), action; }
      return Ok(RuntimeAnswer(answer.value)), action;
    }
    ApplyOne(host.Tables(), MarkRuntimeUnknown(op.operationId));
    if !AuthorityCurrent(host.Tables().authority, op.instance, op.leaseId, op.epoch) {
      MarkUnknown(host, op);
      return Ok(RuntimeAnswer(Uncertain(StaleLease, s.generation))), action;
    }
    if op.preStateId != s.stateId || op.preGeneration != s.generation {
      MarkUnknown(host, op);
      return Ok(RuntimeAnswer(Uncertain(PrestateChanged, s.generation))), action;
    }
    if op.operationId !in host.runtimeQueue {
      MarkUnknown(host, op);
      return Ok(RuntimeAnswer(Uncertain(QueueMissing, s.generation))), action;
    }
    result, action := Execute(host, s, op, witnessId);
  }

  method Wait(host: DurableHost, request: RuntimeRequest, s: Session, witnessId: Id)
    returns (result: Result<Reply, FixtureError>, action: ResponseAction)
    requires Keyed(host.Tables().runtime) && request.kind.WaitRequest?
    modifies host
    ensures host.Did(old(host.Tables()), old(host.committed),
                     WaitRuntime(old(host.Tables()), request, s, witnessId), result, action)
  {
    action := Send;
    var found := LookupOperation(host.Tables().runtime, request.kind.operation);
    if found.Err? { return Err(found.error), action; }
    if found.value.None? { return Ok(RuntimeAnswer(Uncertain(OperationNotFound, s.generation))), action; }
    var op := found.value.value;
    if !BelongsTo(op, s) { return Ok(RuntimeAnswer(Uncertain(StaleLease, s.generation))), action; }
    result, action := DrainOperation(host, request, s, op, witnessId);
  }

  method MarkReconciled(host: DurableHost, id: Id)
    requires id in host.runtimeOperations && host.runtimeOperations[id].status.UNKNOWN?
    modifies host
    ensures host.Tables() == Apply(Apply(old(host.Tables()), ReconcileRuntime(id)), DequeueRuntime(id))
    ensures host.committed == old(host.committed) + [ReconcileRuntime(id), DequeueRuntime(id)]
  {
    host.runtimeOperations := host.runtimeOperations[id := host.runtimeOperations[id].(status := RuntimeStatus.RECONCILED)];
    host.committed := host.committed + [ReconcileRuntime(id)];
    host.runtimeQueue := host.runtimeQueue - {id};
    host.committed := host.committed + [DequeueRuntime(id)];
  }

  method ReconcileOperation(host: DurableHost, request: RuntimeRequest, s: Session, id: Id)
    returns (result: Result<Reply, FixtureError>, action: ResponseAction)
    modifies host
    ensures host.Did(old(host.Tables()), old(host.committed),
                     ReconcileRuntimeOperation(old(host.Tables()), request, s, id), result, action)
  {
    action := Send;
    var found := LookupOperation(host.Tables().runtime, id);
    if found.Err? { return Err(found.error), action; }
    if found.value.None? { return Ok(RuntimeAnswer(Uncertain(OperationNotFound, s.generation))), action; }
    var op := found.value.value;
    if !BelongsTo(op, s) { return Ok(RuntimeAnswer(Uncertain(StaleLease, s.generation))), action; }
    if op.status.SETTLED? || op.status.RECONCILED? {
      var answer := OperationAnswer(request.kind, s, op);
      if answer.Err? { return Err(answer.error), action; }
      return Ok(RuntimeAnswer(answer.value)), action;
    }
    if op.status.UNKNOWN? && op.proof.Some? && op.result.Some? {
      JournalMethods.ApplyTwo(host.Tables(), ReconcileRuntime(id), DequeueRuntime(id));
      MarkReconciled(host, id);
      return Ok(RuntimeAnswer(Completed(id, op.result.value))), action;
    }
    result := Ok(RuntimeAnswer(Uncertain(EffectWitnessMissing, s.generation)));
  }

  method AbandonSession(host: DurableHost, session: Id)
    modifies host
    ensures host.Tables() == Apply(old(host.Tables()), MarkSessionUnknown(session))
    ensures host.committed == old(host.committed) + [MarkSessionUnknown(session)]
  {
    host.runtimeOperations := map id | id in host.runtimeOperations ::
      if host.runtimeOperations[id].session == session && InFlight(host.runtimeOperations[id])
      then host.runtimeOperations[id].(status := RuntimeStatus.UNKNOWN) else host.runtimeOperations[id];
    host.committed := host.committed + [MarkSessionUnknown(session)];
  }

  method DropSessionQueue(host: DurableHost, session: Id)
    modifies host
    ensures host.Tables() == Apply(old(host.Tables()), DequeueSessionUnknown(session))
    ensures host.committed == old(host.committed) + [DequeueSessionUnknown(session)]
  {
    host.runtimeQueue := set id | id in host.runtimeQueue
      && !(&& id in host.runtimeOperations && host.runtimeOperations[id].session == session
           && host.runtimeOperations[id].status.UNKNOWN?);
    host.committed := host.committed + [DequeueSessionUnknown(session)];
  }

  method PersistSession(host: DurableHost, row: Session)
    modifies host
    ensures host.Tables() == Apply(old(host.Tables()), SaveSession(row))
    ensures host.committed == old(host.committed) + [SaveSession(row)]
  {
    host.runtimeSessions := host.runtimeSessions[row.session := row];
    host.committed := host.committed + [SaveSession(row)];
  }

  /** Stopping: what is in flight becomes uncertain, leaves the queue, and the session row is replaced. */
  method StopSession(host: DurableHost, s: Session)
    modifies host
    ensures host.Tables() == ApplyAll(old(host.Tables()), StopSteps(s, false))
    ensures host.committed == old(host.committed) + StopSteps(s, false)
  {
    ApplyThree(host.Tables(), MarkSessionUnknown(s.session), DequeueSessionUnknown(s.session), SaveSession(s.(stopped := true)));
    StopStepsAre(s, host.committed);
    AbandonSession(host, s.session);
    DropSessionQueue(host, s.session);
    PersistSession(host, s.(stopped := true));
  }

  lemma StopStepsAre(s: Session, log: seq<Step>)
    ensures StopSteps(s, false)
         == [MarkSessionUnknown(s.session), DequeueSessionUnknown(s.session), SaveSession(s.(stopped := true))]
    ensures log + StopSteps(s, false)
         == log + [MarkSessionUnknown(s.session)] + [DequeueSessionUnknown(s.session)] + [SaveSession(s.(stopped := true))]
  {
  }

  lemma ReleaseFirst(db: Database, s: Session)
    ensures ApplyAll(db, StopSteps(s, true)) == ApplyAll(Apply(db, RevokeLease(s.leaseId, s.epoch)), StopSteps(s, false))
    ensures StopSteps(s, true) == [RevokeLease(s.leaseId, s.epoch)] + StopSteps(s, false)
  {
    var r, m, d, v := RevokeLease(s.leaseId, s.epoch), MarkSessionUnknown(s.session), DequeueSessionUnknown(s.session),
                      SaveSession(s.(stopped := true));
    assert StopSteps(s, true) == [r, m, d, v] && StopSteps(s, false) == [m, d, v];
    JournalMethods.ApplyFour(db, r, m, d, v);
    ApplyThree(Apply(db, r), m, d, v);
  }

  method Recover(host: DurableHost, request: RuntimeRequest, s: Session)
    returns (result: Result<Reply, FixtureError>, action: ResponseAction)
    requires request.kind.RecoverRequest?
    modifies host
    ensures host.Did(old(host.Tables()), old(host.committed),
                     RecoverRuntime(old(host.Tables()), request, s), result, action)
  {
    action := Send;
    match request.kind.recovery {
      case ReobserveState => result := Ok(RuntimeAnswer(Recovered(s.observation)));
      case Reconcile(id) => result, action := ReconcileOperation(host, request, s, id);
      case ReleaseLease =>
        ReleaseFirst(host.Tables(), s);
        LeaseMethods.RevokeRows(host, s.leaseId, s.epoch);
        StopSession(host, s);
        result := Ok(RuntimeAnswer(Cancelled(s.observation)));
      case StopEpisode =>
        StopSession(host, s);
        result := Ok(RuntimeAnswer(Cancelled(s.observation)));
    }
  }

  method Serve(host: DurableHost, request: RuntimeRequest, s: Session, current: bool, witnessId: Id)
    returns (result: Result<Reply, FixtureError>, action: ResponseAction)
    requires Keyed(host.Tables().runtime)
    modifies host
    ensures host.Did(old(host.Tables()), old(host.committed),
                     ServeSession(old(host.Tables()), request, s, current, witnessId), result, action)
  {
    action := Send;
    var kind := request.kind;
    if !current && kind.DispatchRequest? {
      ApplyOne(host.Tables(), MarkRuntimeUnknown(kind.operation));
      var changed := MarkForContext(host, kind.operation, request);
      if changed { return Ok(RuntimeAnswer(Uncertain(StaleLease, s.generation))), action; }
      return Ok(RuntimeAnswer(Rejected(kind.operation, StaleLease, s.observation))), action;
    }
    if current && IsReconcile(kind) && !NamesSession(s, request) {
      result, action := Recover(host, request, s);
      return;
    }
    if !current && (kind.WaitRequest? || (kind.RecoverRequest? && !IsObservingRecovery(kind))) {
      if kind.WaitRequest? {
        ApplyOne(host.Tables(), MarkRuntimeUnknown(kind.operation));
        var _ := MarkForContext(host, kind.operation, request);
      } else if kind.recovery.Reconcile? {
        ApplyOne(host.Tables(), MarkRuntimeUnknown(kind.recovery.operation));
        var _ := MarkForContext(host, kind.recovery.operation, request);
      }
      return Ok(RuntimeAnswer(Uncertain(StaleLease, s.generation))), action;
    }
    if !NamesSession(s, request) {
      return Ok(RuntimeAnswer(if IsRead(kind) then Observed(s.observation) else Uncertain(StaleLease, s.generation))), action;
    }
    if IsRead(kind) { return Ok(RuntimeAnswer(Observed(s.observation))), action; }
    if kind.RecoverRequest? {
      result, action := Recover(host, request, s);
      return;
    }
    if s.stopped { return Ok(RuntimeAnswer(Uncertain(EpisodeStopped, s.generation))), action; }
    if kind.DispatchRequest? {
      result, action := DispatchAction(host, request, s);
    } else {
      result, action := Wait(host, request, s, witnessId);
    }
  }

  lemma {:induction false} PrependedStep(db: Database, step: Step, rest: seq<Step>)
    ensures ApplyAll(db, [step] + rest) == ApplyAll(Apply(db, step), rest)
    decreases |rest|
  {
    if rest == [] {
      assert [step] + rest == [step];
      ApplyOne(db, step);
    } else {
      var init, last := rest[..|rest| - 1], rest[|rest| - 1];
      PrependedStep(db, step, init);
      ApplyMore(db, [step] + init, last);
      assert [step] + rest == [step] + init + [last];
    }
  }

  lemma PrependedOutcome(db: Database, log: seq<Step>, step: Step, rest: Outcome, all: Outcome)
    requires all == rest.(steps := [step] + rest.steps)
    ensures ApplyAll(db, all.steps) == ApplyAll(Apply(db, step), rest.steps)
    ensures log + all.steps == log + [step] + rest.steps
  {
    PrependedStep(db, step, rest.steps);
    Regroup(log, step, rest.steps);
  }

  lemma OpenUnfolds(db: Database, log: seq<Step>, request: RuntimeRequest, current: bool, witnessId: Id)
    requires SessionBarrier(db.runtime, request, current).None?
    ensures var row := FreshSession(request);
      var rest := ServeSession(Apply(db, SaveSession(row)), request, row, current, witnessId);
      var all := OpenSession(db, request, current, witnessId);
      && all == rest.(steps := [SaveSession(row)] + rest.steps)
      && ApplyAll(db, all.steps) == ApplyAll(Apply(db, SaveSession(row)), rest.steps)
      && log + all.steps == log + [SaveSession(row)] + rest.steps
  {
    var row := FreshSession(request);
    PrependedOutcome(db, log, SaveSession(row),
                     ServeSession(Apply(db, SaveSession(row)), request, row, current, witnessId),
                     OpenSession(db, request, current, witnessId));
  }

  lemma StillKeyed(r: Runtime, row: Session)
    requires Keyed(r)
    ensures Keyed(r.(sessions := r.sessions[row.session := row]))
  {
  }

  method OpenFresh(host: DurableHost, request: RuntimeRequest, current: bool, witnessId: Id)
    returns (result: Result<Reply, FixtureError>, action: ResponseAction)
    requires Keyed(host.Tables().runtime)
    modifies host
    ensures var row := FreshSession(request);
      host.Did(Apply(old(host.Tables()), SaveSession(row)), old(host.committed) + [SaveSession(row)],
               ServeSession(Apply(old(host.Tables()), SaveSession(row)), request, row, current, witnessId), result, action)
  {
    var row := FreshSession(request);
    StillKeyed(host.Tables().runtime, row);
    PersistSession(host, row);
    result, action := Serve(host, request, row, current, witnessId);
  }

  method Open(host: DurableHost, request: RuntimeRequest, current: bool, witnessId: Id)
    returns (result: Result<Reply, FixtureError>, action: ResponseAction)
    requires Keyed(host.Tables().runtime)
    modifies host
    ensures host.Did(old(host.Tables()), old(host.committed),
                     OpenSession(old(host.Tables()), request, current, witnessId), result, action)
  {
    var barrier := SessionBarrier(host.Tables().runtime, request, current);
    if barrier.Some? {
      BarrierIsPlain(host.Tables().runtime, request, current);
      return barrier.value.result, Send;
    }
    OpenUnfolds(host.Tables(), host.committed, request, current, witnessId);
    result, action := OpenFresh(host, request, current, witnessId);
  }

  lemma BarrierIsPlain(r: Runtime, request: RuntimeRequest, current: bool)
    ensures SessionBarrier(r, request, current).Some? ==>
      SessionBarrier(r, request, current).value.steps == [] && SessionBarrier(r, request, current).value.action.Send?
  {
  }

  /** `v3_handle_value`. */
  method HandleRuntime(host: DurableHost, request: RuntimeRequest, witnessId: Id)
    returns (result: Result<Reply, FixtureError>, action: ResponseAction)
    requires Keyed(host.Tables().runtime)
    modifies host
    ensures host.Did(old(host.Tables()), old(host.committed),
                     RuntimeOutcome(old(host.Tables()), request, witnessId), result, action)
  {
    action := Send;
    if !InRange(request.epoch) || !InRange(request.generation) { return Err(Invalid), action; }
    var current := AuthorityCurrent(host.Tables().authority, request.instance, request.leaseId, request.epoch);
    var found := LookupSession(host.Tables().runtime, request.session);
    if found.Err? { return Err(found.error), action; }
    if found.value.Some? {
      result, action := Serve(host, request, found.value.value, current, witnessId);
    } else {
      result, action := Open(host, request, current, witnessId);
    }
  }
}
