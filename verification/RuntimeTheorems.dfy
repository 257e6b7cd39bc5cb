/**
 Theorems about the runtime-v3 journal: each session's settled actions form a
 gap-free chain, uncertainty is final, and the handler's alarm branches are dead.
 */
module RuntimeTheorems {
  import opened Wrappers
  import opened Identity
  import opened HostRecords
  import opened HostCommits
  import opened HostReplies
  import opened RuntimeHandlers
  import opened HostInvariants
  import opened HostRuns
  import HandlerProofs
  import RuntimeProofs
  import RuntimeHistory

  // ----- the chain of settled actions -----

  ghost predicate Consumed(settled: map<Id, RuntimeOperation>, generation: int) {
    exists id :: id in settled && settled[id].preGeneration == generation
  }

  lemma {:induction false} IntervalMembers(low: int, high: int)
    requires low <= high
    ensures |Interval(low, high)| == high - low
    ensures forall g :: g in Interval(low, high) <==> low <= g < high
    decreases high - low
  {
    if low < high { IntervalMembers(low, high - 1); }
  }

  /** As many distinct pre-generations as operations: no generation was consumed twice. */
  lemma {:induction false} EnoughImages(settled: map<Id, RuntimeOperation>)
    ensures |PreGenerations(settled)| <= |settled|
    decreases |settled|
  {
    if settled == map[] {
      assert PreGenerations(settled) == {};
    } else {
      var id :| id in settled;
      var rest := settled - {id};
      assert settled == rest[id := settled[id]];
      RuntimeProofs.CountExtends(rest, id, settled[id]);
      RuntimeProofs.PreGenerationsExtend(rest, id, settled[id]);
      EnoughImages(rest);
    }
  }

  lemma DistinctPreGenerations(settled: map<Id, RuntimeOperation>, i: Id, j: Id)
    requires |PreGenerations(settled)| == |settled|
    requires i in settled && j in settled && settled[i].preGeneration == settled[j].preGeneration
    ensures i == j
  {
    if i != j {
      var rest := settled - {i};
      assert settled == rest[i := settled[i]];
      assert rest[j].preGeneration in PreGenerations(rest);
      RuntimeProofs.CountExtends(rest, i, settled[i]);
      RuntimeProofs.PreGenerationsExtend(rest, i, settled[i]);
      assert PreGenerations(settled) == PreGenerations(rest);
      EnoughImages(rest);
    }
  }

  lemma ChainFacts(settled: map<Id, RuntimeOperation>, generation: int, turnIndex: int)
    requires Chain(settled, generation, turnIndex)
    ensures forall g :: generation - |settled| <= g < generation <==> Consumed(settled, g)
    ensures forall i, j :: i in settled && j in settled && settled[i].preGeneration == settled[j].preGeneration ==> i == j
  {
    IntervalMembers(generation - |settled|, generation);
    forall g | Consumed(settled, g) ensures g in PreGenerations(settled) {
      var id :| id in settled && settled[id].preGeneration == g;
    }
    forall g | g in PreGenerations(settled) ensures Consumed(settled, g) {
      var id :| id in settled && settled[id].preGeneration == g;
    }
    forall i, j | i in settled && j in settled && settled[i].preGeneration == settled[j].preGeneration ensures i == j {
      DistinctPreGenerations(settled, i, j);
    }
  }

  /**
   The settled operations of a session consumed every generation from the one it
   was created with up to the one before its current, each exactly once; the turn
   index is one more than the number of settled end-turn actions.
   */
  lemma GapFreeChain(r: Runtime, session: Id)
    requires ChainsInv(r) && session in r.sessions
    ensures 0 <= BirthGeneration(r, session) <= r.sessions[session].generation
    ensures var settled := SettledOf(r.operations, session);
      && (forall g :: BirthGeneration(r, session) <= g < r.sessions[session].generation <==> Consumed(settled, g))
      && (forall i, j :: i in settled && j in settled && settled[i].preGeneration == settled[j].preGeneration ==> i == j)
      && r.sessions[session].observation.turnIndex == 1 + |EndTurns(settled)|
  {
    var s := r.sessions[session];
    assert SessionInv(r.operations, session, s);
    ChainFacts(SettledOf(r.operations, session), s.generation, s.observation.turnIndex);
  }

  /** The chain starts at the generation the session's first request named and never moves. */
  lemma BirthIsCreation(db: Database, row: Session, steps: seq<Step>)
    requires Inv(db) && row.session !in db.runtime.sessions && Runs(db, [SaveSession(row)] + steps)
    ensures row.session in ApplyAll(db, [SaveSession(row)] + steps).runtime.sessions
    ensures BirthGeneration(ApplyAll(db, [SaveSession(row)] + steps).runtime, row.session) == row.generation
  {
    RunsConcat(db, [SaveSession(row)], steps);
    RunsOne(db, SaveSession(row));
    StepKeeps(db, SaveSession(row));
    CreatedSession(db, row);
    RuntimeHistory.RunGrows(Apply(db, SaveSession(row)), steps);
  }

  lemma CreatedSession(db: Database, row: Session)
    requires PlacesInv(db.runtime) && row.session !in db.runtime.sessions && MaySaveSession(db.runtime, row)
    ensures row.session in Apply(db, SaveSession(row)).runtime.sessions
    ensures BirthGeneration(Apply(db, SaveSession(row)).runtime, row.session) == row.generation
  {
    RuntimeProofs.NewSessionChain(db.runtime, row);
  }

  /** Commit `k` created the session. */
  ghost predicate CreatedAt(steps: seq<Step>, k: int, session: Id) {
    && 0 <= k < |steps| && steps[k].SaveSession? && steps[k].row.session == session
    && session !in StateAt(EmptyDatabase, steps, k).runtime.sessions
  }

  lemma NewSessionStep(db: Database, step: Step, session: Id)
    requires ChainsInv(db.runtime) && Enabled(db, step)
    requires session !in db.runtime.sessions && session in Apply(db, step).runtime.sessions
    ensures step.SaveSession? && step.row.session == session
  {
    if step.SettleRuntime? { SettlementSession(db, step); }
  }

  /** A settlement moves the session of its own operation, which is not at the last generation. */
  lemma SettlementSession(db: Database, step: Step)
    requires ChainsInv(db.runtime) && Enabled(db, step) && step.SettleRuntime?
    ensures step.next.session in db.runtime.sessions
    ensures db.runtime.sessions[step.next.session].generation < MAX_INTEGER
    ensures step.id in db.runtime.operations && db.runtime.operations[step.id].session == step.next.session
  {
    var session := db.runtime.operations[step.id].session;
    assert SessionInv(db.runtime.operations, session, db.runtime.sessions[session]);
  }

  lemma {:induction false} CreationRun(steps: seq<Step>, session: Id) returns (k: int)
    requires Runs(EmptyDatabase, steps) && session in ApplyAll(EmptyDatabase, steps).runtime.sessions
    ensures CreatedAt(steps, k, session)
    decreases |steps|
  {
    k := |steps| - 1;
    if session in ApplyAll(EmptyDatabase, steps[..k]).runtime.sessions {
      var init := steps[..k];
      k := CreationRun(init, session);
      assert init[..k] == steps[..k];
    } else {
      EmptyInv();
      RuntimeHistory.RuntimeSafe(EmptyDatabase, steps[..k]);
      NewSessionStep(ApplyAll(EmptyDatabase, steps[..k]), steps[k], session);
    }
  }

  /** From `birth` on the settled actions of a session consumed every generation below its current one, each once. */
  ghost predicate ChainFrom(r: Runtime, session: Id, birth: int)
    requires session in r.sessions
  {
    var settled := SettledOf(r.operations, session);
    && 0 <= birth <= r.sessions[session].generation
    && (forall g :: birth <= g < r.sessions[session].generation <==> Consumed(settled, g))
    && (forall i, j :: i in settled && j in settled && settled[i].preGeneration == settled[j].preGeneration ==> i == j)
    && r.sessions[session].observation.turnIndex == 1 + |EndTurns(settled)|
  }

  lemma BornAt(steps: seq<Step>, k: nat)
    requires Runs(EmptyDatabase, steps) && k < |steps| && steps[k].SaveSession? && CreatedAt(steps, k, steps[k].row.session)
    ensures steps[k].row.session in ApplyAll(EmptyDatabase, steps).runtime.sessions
    ensures BirthGeneration(ApplyAll(EmptyDatabase, steps).runtime, steps[k].row.session) == steps[k].row.generation
  {
    var before, rest := StateAt(EmptyDatabase, steps, k), steps[k + 1..];
    EmptyInv();
    SafeAt(EmptyDatabase, steps, k);
    RunsFrom(EmptyDatabase, steps, k, |steps|);
    Tail(steps, k);
    BirthIsCreation(before, steps[k].row, rest);
  }

  lemma Tail(steps: seq<Step>, k: nat)
    requires k < |steps|
    ensures steps[..|steps|] == steps && steps[k..|steps|] == [steps[k]] + steps[k + 1..]
  {
  }

  /** Over any run every session's chain starts at the generation of the commit that created it. */
  lemma ChainStartsAtCreation(steps: seq<Step>, session: Id) returns (k: int)
    requires Runs(EmptyDatabase, steps) && session in ApplyAll(EmptyDatabase, steps).runtime.sessions
    ensures CreatedAt(steps, k, session) && ChainFrom(ApplyAll(EmptyDatabase, steps).runtime, session, steps[k].row.generation)
  {
    k := CreationRun(steps, session);
    BornAt(steps, k);
    EmptyInv();
    RunKeeps(EmptyDatabase, steps);
    GapFreeChain(ApplyAll(EmptyDatabase, steps).runtime, session);
  }

  // ----- settlements happen once -----

  predicate IsSettlement(step: Step, id: Id) { step.SettleRuntime? && step.id == id }

  function SettlementCount(steps: seq<Step>, id: Id): nat {
    if steps == [] then 0
    else SettlementCount(steps[..|steps| - 1], id) + if IsSettlement(steps[|steps| - 1], id) then 1 else 0
  }

  ghost predicate IsSettled(r: Runtime, id: Id) { id in r.operations && r.operations[id].status.SETTLED? }

  lemma SettlementStep(db: Database, step: Step, id: Id)
    requires Enabled(db, step)
    ensures IsSettlement(step, id) ==> !IsSettled(db.runtime, id) && IsSettled(Apply(db, step).runtime, id)
    ensures !IsSettlement(step, id) ==> (IsSettled(Apply(db, step).runtime, id) <==> IsSettled(db.runtime, id))
  {
    if RotatesAuthority(step) { RotationSettlesNothing(db.runtime, id); }
  }

  lemma RotationSettlesNothing(r: Runtime, id: Id)
    ensures IsSettled(RotateRuntime(r), id) <==> IsSettled(r, id)
  {
  }

  /** Over any run a runtime operation is settled by exactly one commit, or by none and then is not settled. */
  lemma {:induction false} SettlementsAreUnique(steps: seq<Step>, id: Id)
    requires Runs(EmptyDatabase, steps)
    ensures SettlementCount(steps, id) == if IsSettled(ApplyAll(EmptyDatabase, steps).runtime, id) then 1 else 0
    decreases |steps|
  {
    if steps != [] {
      var init, last := steps[..|steps| - 1], steps[|steps| - 1];
      SettlementsAreUnique(init, id);
      SettlementStep(ApplyAll(EmptyDatabase, init), last, id);
    }
  }

  // ----- barriers -----

  lemma AtMostOne(ids: set<Id>)
    requires forall i, j :: i in ids && j in ids ==> i == j
    ensures |ids| <= 1
  {
    if ids != {} {
      var i :| i in ids;
      assert ids == {i};
    }
  }

  /** Carries a proof exactly when settled, and was neither rejected nor reconciled. */
  ghost predicate Proven(op: RuntimeOperation) {
    (op.proof.Some? <==> op.status.SETTLED?) && !op.status.REJECTED? && !op.status.RECONCILED?
  }

  /** One unresolved operation and one unstopped session per instance, at most 64 rows, proof exactly when settled. */
  lemma InstanceBounds(r: Runtime, instance: Id)
    requires RuntimeInv(r)
    ensures |UnresolvedOfInstance(r, instance)| <= 1 && |ActiveSessions(r, instance)| <= 1
    ensures |r.operations| <= 64
    ensures forall id :: id in r.operations ==> Proven(r.operations[id])
  {
    AtMostOne(UnresolvedOfInstance(r, instance));
    AtMostOne(ActiveSessions(r, instance));
    forall id | id in r.operations ensures Proven(r.operations[id]) {
      assert RuntimeRowInv(id, r.operations[id]);
    }
  }

  lemma UncertainIsFinal(r: Runtime, q: Runtime, id: Id)
    requires RuntimeHistory.OperationsAge(r.operations, q.operations) && id in r.operations && r.operations[id].status.UNKNOWN?
    ensures id in q.operations && q.operations[id] == r.operations[id]
  {
    assert RuntimeHistory.OperationAges(r.operations[id], q.operations[id]);
  }

  lemma StaysUncertain(db: Database, steps: seq<Step>, id: Id)
    requires Inv(db) && Runs(db, steps) && id in db.runtime.operations && db.runtime.operations[id].status.UNKNOWN?
    ensures id in ApplyAll(db, steps).runtime.operations
    ensures ApplyAll(db, steps).runtime.operations[id] == db.runtime.operations[id]
  {
    RuntimeHistory.RunGrows(db, steps);
    UncertainIsFinal(db.runtime, ApplyAll(db, steps).runtime, id);
  }

  /**
   Once an operation is uncertain it stays exactly as it is, and its instance is
   never again given an operation or a new session.
   */
  lemma UncertaintyBars(db: Database, steps: seq<Step>, id: Id, k: nat)
    requires Inv(db) && Runs(db, steps) && k < |steps|
    requires id in db.runtime.operations && db.runtime.operations[id].status.UNKNOWN?
    ensures id in StateAt(db, steps, k).runtime.operations
    ensures StateAt(db, steps, k).runtime.operations[id] == db.runtime.operations[id]
    ensures steps[k].AdmitRuntime? ==> steps[k].operation.instance != db.runtime.operations[id].instance
    ensures steps[k].SaveSession? && steps[k].row.session !in StateAt(db, steps, k).runtime.sessions ==>
      steps[k].row.instance != db.runtime.operations[id].instance
  {
    RunsAt(db, steps, k);
    StaysUncertain(db, steps[..k], id);
    Barred(StateAt(db, steps, k), steps[k], id);
  }

  lemma Barred(db: Database, step: Step, id: Id)
    requires id in db.runtime.operations && db.runtime.operations[id].status.UNKNOWN? && Enabled(db, step)
    ensures step.AdmitRuntime? ==> step.operation.instance != db.runtime.operations[id].instance
    ensures step.SaveSession? && step.row.session !in db.runtime.sessions ==> step.row.instance != db.runtime.operations[id].instance
  {
    assert id in UnresolvedOfInstance(db.runtime, db.runtime.operations[id].instance);
  }

  /** A restart leaves the runtime queue empty. */
  lemma ReopenEmptiesQueue(db: Database)
    requires RuntimeInv(db.runtime)
    ensures Apply(db, Reopen).runtime.queue == {}
  {
    forall id | id in db.runtime.queue ensures id !in RotateRuntime(db.runtime).queue {
      assert PlacedIn(db.runtime.sessions, db.runtime.queue, db.runtime.operations[id]);
      assert RuntimeRowInv(id, db.runtime.operations[id]);
    }
  }

  // ----- what a wait answers -----

  /**
   Waiting on an admitted operation settles it exactly when its lease is current
   and its session has a next generation; without authority it becomes
   uncertain.  At the last generation it is begun and then fails.
   */
  lemma WaitOutcomes(db: Database, request: RuntimeRequest, s: Session, witnessId: Id)
    requires RuntimeInv(db.runtime) && request.kind.WaitRequest?
    requires request.kind.operation in db.runtime.operations
    requires s.session in db.runtime.sessions && s == db.runtime.sessions[s.session]
    requires db.runtime.operations[request.kind.operation].status.ADMITTED?
    requires BelongsTo(db.runtime.operations[request.kind.operation], s)
    ensures var op := db.runtime.operations[request.kind.operation];
      var id := op.operationId;
      WaitRuntime(db, request, s, witnessId) ==
      if !AuthorityCurrent(db.authority, op.instance, op.leaseId, op.epoch) then
        Respond([MarkRuntimeUnknown(id)], Uncertain(StaleLease, s.generation))
      else if s.generation == MAX_INTEGER then Outcome([BeginRuntime(id)], Err(Invalid), Send)
      else Respond([BeginRuntime(id), SettleRuntime(id, ProofOf(s, op, witnessId), ResultOf(s, op.action), SessionAfter(s, s, op))],
                   Completed(id, ResultOf(s, op.action)))
  {
    var id := request.kind.operation;
    var op := db.runtime.operations[id];
    assert RuntimeRowInv(id, op) && PlacedIn(db.runtime.sessions, db.runtime.queue, op);
    assert SessionInv(db.runtime.operations, s.session, s);
    RuntimeProofs.TurnIndexBounded(db.runtime, s.session);
    DrainOutcomes(db, request, s, op, witnessId);
  }

  lemma DrainOutcomes(db: Database, request: RuntimeRequest, s: Session, op: RuntimeOperation, witnessId: Id)
    requires RuntimeRowInv(op.operationId, op) && PlacedIn(db.runtime.sessions, db.runtime.queue, op)
    requires s.session in db.runtime.sessions && s == db.runtime.sessions[s.session] && BelongsTo(op, s)
    requires SessionRowInv(s.session, s) && 1 <= s.observation.turnIndex <= 1 + MAX_RUNTIME_OPERATIONS
    requires op.status.ADMITTED?
    ensures Drain(db, request, s, op, witnessId) ==
      if !AuthorityCurrent(db.authority, op.instance, op.leaseId, op.epoch) then
        Respond([MarkRuntimeUnknown(op.operationId)], Uncertain(StaleLease, s.generation))
      else if s.generation == MAX_INTEGER then Outcome([BeginRuntime(op.operationId)], Err(Invalid), Send)
      else Respond([BeginRuntime(op.operationId),
                    SettleRuntime(op.operationId, ProofOf(s, op, witnessId), ResultOf(s, op.action), SessionAfter(s, s, op))],
                   Completed(op.operationId, ResultOf(s, op.action)))
  {
    if s.generation < MAX_INTEGER { RuntimeProofs.SettledRow(s, op.(status := EXECUTING), witnessId); }
  }

  /** Begun, but its session has no next generation to settle into. */
  ghost predicate Stuck(r: Runtime, id: Id) {
    && id in r.operations && r.operations[id].status.EXECUTING?
    && r.operations[id].session in r.sessions && r.sessions[r.operations[id].session].generation == MAX_INTEGER
  }

  /** The commits that give up an operation in flight. */
  ghost predicate Abandons(step: Step, id: Id, session: Id) {
    RotatesAuthority(step) || step == MarkRuntimeUnknown(id) || step == MarkSessionUnknown(session)
  }

  ghost predicate Unabandoned(steps: seq<Step>, id: Id, session: Id) {
    forall i :: 0 <= i < |steps| ==> !Abandons(steps[i], id, session)
  }

  lemma AbandonedStep(db: Database, step: Step, id: Id)
    requires Enabled(db, step) && Stuck(db.runtime, id) && Abandons(step, id, db.runtime.operations[id].session)
    ensures id in Apply(db, step).runtime.operations
    ensures Apply(db, step).runtime.operations[id] == db.runtime.operations[id].(status := RuntimeStatus.UNKNOWN)
  {
  }

  lemma StuckStep(db: Database, step: Step, id: Id)
    requires ChainsInv(db.runtime) && Enabled(db, step) && Stuck(db.runtime, id)
    requires !Abandons(step, id, db.runtime.operations[id].session)
    ensures id in Apply(db, step).runtime.operations && Apply(db, step).runtime.operations[id] == db.runtime.operations[id]
    ensures Stuck(Apply(db, step).runtime, id)
  {
    if step.SettleRuntime? { SettlementSession(db, step); }
  }

  lemma UnabandonedThen(steps: seq<Step>, last: Step, id: Id, session: Id)
    ensures Unabandoned(steps + [last], id, session) <==> Unabandoned(steps, id, session) && !Abandons(last, id, session)
  {
    var more := steps + [last];
    assert more[|steps|] == last;
    assert forall i :: 0 <= i < |steps| ==> more[i] == steps[i];
  }

  /** What has become of a stuck operation after some commits. */
  ghost predicate StuckSince(r: Runtime, q: Runtime, steps: seq<Step>, id: Id)
    requires id in r.operations
  {
    var op := r.operations[id];
    && id in q.operations
    && if Unabandoned(steps, id, op.session) then q.operations[id] == op && Stuck(q, id)
       else q.operations[id] == op.(status := RuntimeStatus.UNKNOWN)
  }

  lemma StuckSinceStep(r: Runtime, db: Database, steps: seq<Step>, last: Step, id: Id)
    requires RuntimeInv(db.runtime) && Enabled(db, last) && Stuck(r, id) && StuckSince(r, db.runtime, steps, id)
    ensures StuckSince(r, Apply(db, last).runtime, steps + [last], id)
  {
    UnabandonedThen(steps, last, id, r.operations[id].session);
    if Unabandoned(steps, id, r.operations[id].session) {
      if Abandons(last, id, r.operations[id].session) { AbandonedStep(db, last, id); } else { StuckStep(db, last, id); }
    } else {
      RuntimeHistory.StepGrows(db, last);
      UncertainIsFinal(db.runtime, Apply(db, last).runtime, id);
    }
  }

  /**
   An operation begun at the last generation is never settled.  It stays exactly
   as it is until the authority changes, its own mark or its session's mark is
   committed, and is uncertain for ever after.
   */
  lemma {:induction false} StuckForEver(db: Database, steps: seq<Step>, id: Id)
    requires Inv(db) && Runs(db, steps) && Stuck(db.runtime, id)
    ensures StuckSince(db.runtime, ApplyAll(db, steps).runtime, steps, id)
    decreases |steps|
  {
    if steps != [] {
      var init, last := steps[..|steps| - 1], steps[|steps| - 1];
      StuckForEver(db, init, id);
      RuntimeHistory.RuntimeSafe(db, init);
      StuckSinceStep(db.runtime, ApplyAll(db, init), init, last, id);
      SplitLast(steps);
    }
  }

  predicate IsStop(kind: RuntimeKind) {
    kind.RecoverRequest? && (kind.recovery.ReleaseLease? || kind.recovery.StopEpisode?)
  }

  /** The commits mark the operation only if its lease is stale, and its session only to stop it. */
  ghost predicate GivesUpWithReason(db: Database, request: RuntimeRequest, steps: seq<Step>, id: Id)
    requires id in db.runtime.operations
  {
    var op := db.runtime.operations[id];
    && (MarkRuntimeUnknown(id) in steps ==> !AuthorityCurrent(db.authority, op.instance, op.leaseId, op.epoch))
    && (MarkSessionUnknown(op.session) in steps ==> IsStop(request.kind) && request.session == op.session)
  }

  lemma WaitAbandons(db: Database, request: RuntimeRequest, s: Session, witnessId: Id, id: Id)
    requires RowsInv(db.runtime.operations) && Stuck(db.runtime, id) && request.kind.WaitRequest?
    ensures GivesUpWithReason(db, request, WaitRuntime(db, request, s, witnessId).steps, id)
  {
    if request.kind.operation in db.runtime.operations {
      assert RuntimeRowInv(request.kind.operation, db.runtime.operations[request.kind.operation]);
    }
  }

  lemma RecoverAbandons(db: Database, request: RuntimeRequest, s: Session, id: Id)
    requires Stuck(db.runtime, id) && request.kind.RecoverRequest? && s.session == request.session
    ensures GivesUpWithReason(db, request, RecoverRuntime(db, request, s).steps, id)
  {
  }

  lemma ServeAbandons(db: Database, request: RuntimeRequest, s: Session, current: bool, witnessId: Id, id: Id)
    requires RowsInv(db.runtime.operations) && Stuck(db.runtime, id) && s.session == request.session
    requires current == AuthorityCurrent(db.authority, request.instance, request.leaseId, request.epoch)
    ensures GivesUpWithReason(db, request, ServeSession(db, request, s, current, witnessId).steps, id)
  {
    if request.kind.WaitRequest? { WaitAbandons(db, request, s, witnessId, id); }
    if request.kind.RecoverRequest? { RecoverAbandons(db, request, s, id); }
  }

  /** A runtime request marks a stuck operation only when its lease is stale, and its session only to stop it. */
  lemma OnlyStaleOrStopped(db: Database, request: RuntimeRequest, witnessId: Id, id: Id)
    requires RuntimeInv(db.runtime) && Stuck(db.runtime, id)
    ensures GivesUpWithReason(db, request, RuntimeOutcome(db, request, witnessId).steps, id)
  {
    var current := AuthorityCurrent(db.authority, request.instance, request.leaseId, request.epoch);
    if request.session in db.runtime.sessions {
      KeyedSession(db.runtime, request.session);
      ServeAbandons(db, request, db.runtime.sessions[request.session], current, witnessId, id);
    } else {
      OpenAbandons(db, request, current, witnessId, id);
    }
    PathAbandons(db, request, witnessId, id);
  }

  lemma KeyedSession(r: Runtime, session: Id)
    requires ChainsInv(r) && session in r.sessions
    ensures r.sessions[session].session == session
  {
    assert SessionInv(r.operations, session, r.sessions[session]);
  }

  lemma PathAbandons(db: Database, request: RuntimeRequest, witnessId: Id, id: Id)
    requires id in db.runtime.operations
    requires var current := AuthorityCurrent(db.authority, request.instance, request.leaseId, request.epoch);
      if request.session in db.runtime.sessions
      then GivesUpWithReason(db, request,
             ServeSession(db, request, db.runtime.sessions[request.session], current, witnessId).steps, id)
      else GivesUpWithReason(db, request, OpenSession(db, request, current, witnessId).steps, id)
    ensures GivesUpWithReason(db, request, RuntimeOutcome(db, request, witnessId).steps, id)
  {
  }

  lemma OpenAbandons(db: Database, request: RuntimeRequest, current: bool, witnessId: Id, id: Id)
    requires RowsInv(db.runtime.operations) && Stuck(db.runtime, id) && request.session !in db.runtime.sessions
    requires current == AuthorityCurrent(db.authority, request.instance, request.leaseId, request.epoch)
    ensures GivesUpWithReason(db, request, OpenSession(db, request, current, witnessId).steps, id)
  {
    HandlerProofs.BarrierMakesNoCommit(db.runtime, request, current);
    ServeAbandons(Apply(db, SaveSession(FreshSession(request))), request, FreshSession(request), current, witnessId, id);
  }

  // ----- dead branches -----

  /** Codes that only a corrupted journal could produce. */
  predicate AlarmCode(code: RuntimeCode) {
    code.PrestateChanged? || code.QueueMissing? || code.OperationRejected?
  }

  predicate Alarming(reply: RuntimeReply) {
    (reply.Rejected? || reply.Uncertain?) && AlarmCode(reply.code)
  }

  predicate Quiet(outcome: Outcome) {
    outcome.result.Ok? && outcome.result.value.RuntimeAnswer? ==> !Alarming(outcome.result.value.runtime)
  }

  lemma AnswerQuiet(kind: RuntimeKind, s: Session, op: RuntimeOperation)
    requires RuntimeRowInv(op.operationId, op)
    ensures OperationAnswer(kind, s, op).Ok? && !Alarming(OperationAnswer(kind, s, op).value)
  {
  }

  lemma DispatchQuiet(r: Runtime, request: RuntimeRequest, s: Session)
    requires RowsInv(r.operations) && request.kind.DispatchRequest?
    ensures Quiet(DispatchRuntime(r, request, s))
  {
    if request.kind.operation in r.operations {
      assert RuntimeRowInv(request.kind.operation, r.operations[request.kind.operation]);
      AnswerQuiet(request.kind, s, r.operations[request.kind.operation]);
    }
  }

  lemma AdmittedWaitQuiet(db: Database, request: RuntimeRequest, s: Session, witnessId: Id)
    requires RuntimeInv(db.runtime) && request.kind.WaitRequest?
    requires request.kind.operation in db.runtime.operations
    requires s.session in db.runtime.sessions && s == db.runtime.sessions[s.session]
    requires db.runtime.operations[request.kind.operation].status.ADMITTED?
    requires BelongsTo(db.runtime.operations[request.kind.operation], s)
    ensures Quiet(WaitRuntime(db, request, s, witnessId))
  {
    WaitOutcomes(db, request, s, witnessId);
  }

  lemma OtherWaitQuiet(db: Database, request: RuntimeRequest, s: Session, witnessId: Id)
    requires request.kind.WaitRequest?
    requires var id := request.kind.operation;
      id in db.runtime.operations && BelongsTo(db.runtime.operations[id], s) ==>
        RuntimeRowInv(id, db.runtime.operations[id]) && !db.runtime.operations[id].status.ADMITTED?
    ensures Quiet(WaitRuntime(db, request, s, witnessId))
  {
    var id := request.kind.operation;
    if id in db.runtime.operations && BelongsTo(db.runtime.operations[id], s) {
      AnswerQuiet(request.kind, s, db.runtime.operations[id]);
    }
  }

  lemma WaitQuiet(db: Database, request: RuntimeRequest, s: Session, witnessId: Id)
    requires RuntimeInv(db.runtime) && request.kind.WaitRequest?
    requires s.session in db.runtime.sessions && s == db.runtime.sessions[s.session]
    ensures Quiet(WaitRuntime(db, request, s, witnessId))
  {
    var id := request.kind.operation;
    if id in db.runtime.operations && BelongsTo(db.runtime.operations[id], s) && db.runtime.operations[id].status.ADMITTED? {
      AdmittedWaitQuiet(db, request, s, witnessId);
    } else {
      OtherWaitQuiet(db, request, s, witnessId);
    }
  }

  lemma RecoverQuiet(db: Database, request: RuntimeRequest, s: Session)
    requires RowsInv(db.runtime.operations) && request.kind.RecoverRequest?
    ensures Quiet(RecoverRuntime(db, request, s))
  {
    if request.kind.recovery.Reconcile? {
      var id := request.kind.recovery.operation;
      if id in db.runtime.operations {
        assert RuntimeRowInv(id, db.runtime.operations[id]);
        AnswerQuiet(request.kind, s, db.runtime.operations[id]);
      }
    }
  }

  lemma ServeQuietIf(db: Database, request: RuntimeRequest, s: Session, current: bool, witnessId: Id)
    requires request.kind.DispatchRequest? ==> Quiet(DispatchRuntime(db.runtime, request, s))
    requires request.kind.WaitRequest? ==> Quiet(WaitRuntime(db, request, s, witnessId))
    requires request.kind.RecoverRequest? ==> Quiet(RecoverRuntime(db, request, s))
    ensures Quiet(ServeSession(db, request, s, current, witnessId))
  {
  }

  lemma ServeQuiet(db: Database, request: RuntimeRequest, s: Session, current: bool, witnessId: Id)
    requires RuntimeInv(db.runtime) && s.session in db.runtime.sessions && s == db.runtime.sessions[s.session]
    ensures Quiet(ServeSession(db, request, s, current, witnessId))
  {
    match request.kind {
      case DispatchRequest(_, _, _) => DispatchQuiet(db.runtime, request, s);
      case WaitRequest(_) => WaitQuiet(db, request, s, witnessId);
      case RecoverRequest(_) => RecoverQuiet(db, request, s);
      case _ =>
    }
    ServeQuietIf(db, request, s, current, witnessId);
  }

  lemma BarrierQuiet(r: Runtime, request: RuntimeRequest, current: bool)
    ensures SessionBarrier(r, request, current).Some? ==> Quiet(SessionBarrier(r, request, current).value)
  {
  }

  lemma OpenQuiet(db: Database, request: RuntimeRequest, current: bool, witnessId: Id)
    requires RuntimeInv(db.runtime) && request.session !in db.runtime.sessions
    requires InRange(request.epoch) && InRange(request.generation)
    ensures Quiet(OpenSession(db, request, current, witnessId))
  {
    BarrierQuiet(db.runtime, request, current);
    if SessionBarrier(db.runtime, request, current).None? {
      HandlerProofs.OpenSessionEnabled(db.runtime, request, current);
      RuntimeProofs.SaveKeeps(db.runtime, FreshSession(request));
      ServeQuiet(Apply(db, SaveSession(FreshSession(request))), request, FreshSession(request), current, witnessId);
    }
  }

  /** No request to a database grown from an empty one is ever told that a pre-state changed, a queue row is missing or an operation was rejected. */
  lemma AlarmsNeverRing(db: Database, request: RuntimeRequest, witnessId: Id)
    requires RuntimeInv(db.runtime)
    ensures Quiet(RuntimeOutcome(db, request, witnessId))
  {
    var current := AuthorityCurrent(db.authority, request.instance, request.leaseId, request.epoch);
    if InRange(request.epoch) && InRange(request.generation) {
      if request.session in db.runtime.sessions {
        HandlerProofs.SessionFound(db.runtime, request.session);
        ServeQuiet(db, request, db.runtime.sessions[request.session], current, witnessId);
      } else {
        OpenQuiet(db, request, current, witnessId);
      }
    }
  }
}
