/**
 What never goes backwards in the runtime-v3 journal: operation statuses,
 session rows and the generation each session was born with.
 */
module RuntimeHistory {
  import opened Wrappers
  import opened Identity
  import opened HostRecords
  import opened HostCommits
  import opened RuntimeHandlers
  import opened HostInvariants
  import opened HostRuns
  import RuntimeProofs

  function Rank(status: RuntimeStatus): nat {
    match status
    case ADMITTED => 0
    case EXECUTING => 1
    case UNKNOWN => 2
    case SETTLED => 2
    case RECONCILED => 2
    case REJECTED => 2
  }

  /** One operation as it ages: identity fixed, status forward, and final once it left flight. */
  ghost predicate OperationAges(x: RuntimeOperation, y: RuntimeOperation) {
    && y == x.(status := y.status, proof := y.proof, result := y.result)
    && (x.status == y.status || Rank(x.status) < Rank(y.status))
    && (!InFlight(x) ==> y == x)
  }

  /** One session as it ages: identity fixed, generation and turn forward, and final once stopped. */
  ghost predicate SessionAges(s: Session, t: Session) {
    && t.instance == s.instance && t.session == s.session && t.leaseId == s.leaseId && t.epoch == s.epoch
    && t.stateId == s.stateId && t.legalActions == s.legalActions
    && s.generation <= t.generation && s.observation.turnIndex <= t.observation.turnIndex
    && (s.stopped ==> t == s)
  }

  ghost predicate OperationsAge(m: map<Id, RuntimeOperation>, n: map<Id, RuntimeOperation>) {
    forall id :: id in m ==> id in n && OperationAges(m[id], n[id])
  }

  ghost predicate SessionsAge(m: map<Id, Session>, n: map<Id, Session>) {
    forall id :: id in m ==> id in n && SessionAges(m[id], n[id])
  }

  ghost predicate BirthsKept(r: Runtime, q: Runtime) {
    forall id :: id in r.sessions ==> id in q.sessions && BirthGeneration(q, id) == BirthGeneration(r, id)
  }

  ghost predicate RuntimeGrows(r: Runtime, q: Runtime) {
    OperationsAge(r.operations, q.operations) && SessionsAge(r.sessions, q.sessions) && BirthsKept(r, q)
  }

  lemma GrowsReflexive(r: Runtime)
    ensures RuntimeGrows(r, r)
  {
  }

  lemma GrowsTransitive(r: Runtime, q: Runtime, p: Runtime)
    requires RuntimeGrows(r, q) && RuntimeGrows(q, p)
    ensures RuntimeGrows(r, p)
  {
    forall id | id in r.operations ensures id in p.operations && OperationAges(r.operations[id], p.operations[id]) {
      assert OperationAges(r.operations[id], q.operations[id]) && OperationAges(q.operations[id], p.operations[id]);
    }
    forall id | id in r.sessions ensures id in p.sessions && SessionAges(r.sessions[id], p.sessions[id]) {
      assert SessionAges(r.sessions[id], q.sessions[id]) && SessionAges(q.sessions[id], p.sessions[id]);
    }
  }

  /** Commits that only let go of work in flight keep sessions and births as they are. */
  lemma SoftenedGrows(r: Runtime, q: Runtime)
    requires RuntimeProofs.Softened(r, q)
    ensures RuntimeGrows(r, q)
  {
    forall id | id in r.operations ensures id in q.operations && OperationAges(r.operations[id], q.operations[id]) {
      assert RuntimeProofs.SoftenedRow(r.operations[id], q.operations[id]);
    }
    forall id | id in r.sessions ensures BirthGeneration(q, id) == BirthGeneration(r, id) {
      RuntimeProofs.SoftenedSettled(r.operations, q.operations, id);
    }
  }

  lemma SaveGrows(r: Runtime, row: Session)
    requires MaySaveSession(r, row)
    ensures RuntimeGrows(r, r.(sessions := r.sessions[row.session := row]))
  {
  }

  lemma AdmitGrows(r: Runtime, op: RuntimeOperation)
    requires op.operationId !in r.operations && !op.status.SETTLED?
    ensures RuntimeGrows(r, AdmitRuntimeRows(r, op))
  {
    forall id | id in r.sessions ensures BirthGeneration(AdmitRuntimeRows(r, op), id) == BirthGeneration(r, id) {
      RuntimeProofs.AdmitSettled(r.operations, op, id);
    }
  }

  lemma SettleBirths(r: Runtime, q: Runtime, id: Id, op: RuntimeOperation, next: Session, session: Id)
    requires q.operations == r.operations[id := op] && q.sessions == r.sessions[next.session := next]
    requires id in r.operations && !r.operations[id].status.SETTLED? && op.status.SETTLED?
    requires op.session == r.operations[id].session == next.session && next.session in r.sessions && session in r.sessions
    requires next.generation == r.sessions[next.session].generation + 1
    ensures BirthGeneration(q, session) == BirthGeneration(r, session)
  {
    RuntimeProofs.SettleSettled(r.operations, id, op, session);
    if session == next.session { RuntimeProofs.CountExtends(SettledOf(r.operations, session), id, op); }
  }

  lemma SettledSessionAges(r: Runtime, id: Id)
    requires id in r.operations && r.operations[id].session in r.sessions && InFlight(r.operations[id])
    requires PlacedIn(r.sessions, r.queue, r.operations[id])
    requires 1 <= r.sessions[r.operations[id].session].observation.turnIndex <= 1 + MAX_RUNTIME_OPERATIONS
    ensures SessionAges(r.sessions[r.operations[id].session],
                        SessionAfter(r.sessions[r.operations[id].session], r.sessions[r.operations[id].session], r.operations[id]))
  {
  }

  lemma SettledGrows(r: Runtime, id: Id, proof: RuntimeWitness, result: RuntimeResult, next: Session)
    requires id in r.operations && r.operations[id].status.EXECUTING?
    requires next.session == r.operations[id].session && next.session in r.sessions
    requires SessionAges(r.sessions[next.session], next) && next.generation == r.sessions[next.session].generation + 1
    ensures RuntimeGrows(r, SettleRuntimeRows(r, id, proof, result, next))
  {
    var q := SettleRuntimeRows(r, id, proof, result, next);
    var settled := r.operations[id].(status := RuntimeStatus.SETTLED, proof := Some(proof), result := Some(result));
    SettledBirths(r, q, id, settled, next);
    assert BirthsKept(r, q);
  }

  lemma SettledBirths(r: Runtime, q: Runtime, id: Id, settled: RuntimeOperation, next: Session)
    requires id in r.operations && r.operations[id].status.EXECUTING? && settled.status.SETTLED?
    requires settled.session == r.operations[id].session == next.session && next.session in r.sessions
    requires next.generation == r.sessions[next.session].generation + 1
    requires q.operations == r.operations[id := settled] && q.sessions == r.sessions[next.session := next]
    ensures BirthsKept(r, q)
  {
    forall session | session in r.sessions ensures BirthGeneration(q, session) == BirthGeneration(r, session) {
      SettleBirths(r, q, id, settled, next, session);
    }
  }

  lemma SettleGrows(db: Database, id: Id, proof: RuntimeWitness, result: RuntimeResult, next: Session)
    requires PlacesInv(db.runtime) && ChainsInv(db.runtime) && |db.runtime.operations| <= MAX_RUNTIME_OPERATIONS
    requires MaySettleRuntime(db, id, proof, result, next)
    ensures RuntimeGrows(db.runtime, SettleRuntimeRows(db.runtime, id, proof, result, next))
  {
    var r := db.runtime;
    assert PlacedIn(r.sessions, r.queue, r.operations[id]);
    RuntimeProofs.TurnIndexBounded(r, r.operations[id].session);
    SettledSessionAges(r, id);
    SettledGrows(r, id, proof, result, next);
  }

  lemma RowStepGrows(db: Database, step: Step)
    requires RuntimeInv(db.runtime) && Enabled(db, step) && (step.SaveSession? || step.AdmitRuntime? || step.SettleRuntime?)
    ensures RuntimeGrows(db.runtime, Apply(db, step).runtime)
  {
    match step
    case SaveSession(row) => SaveGrows(db.runtime, row);
    case AdmitRuntime(op) => AdmitGrows(db.runtime, op);
    case SettleRuntime(id, proof, result, next) => SettleGrows(db, id, proof, result, next);
  }

  ghost predicate TouchesRuntime(step: Step) {
    MovesStatus(step) || step.SaveSession? || step.AdmitRuntime? || step.SettleRuntime?
  }

  lemma OtherStepKeeps(db: Database, step: Step)
    requires Enabled(db, step) && !RotatesAuthority(step) && !TouchesRuntime(step)
    ensures Apply(db, step).runtime == db.runtime
  {
  }

  lemma StepGrows(db: Database, step: Step)
    requires RuntimeInv(db.runtime) && Enabled(db, step)
    ensures RuntimeGrows(db.runtime, Apply(db, step).runtime)
  {
    if RotatesAuthority(step) {
      RuntimeProofs.RotateSoftens(db.runtime);
      SoftenedGrows(db.runtime, RotateRuntime(db.runtime));
    } else if MovesStatus(step) {
      StatusStepSoftens(db, step);
      SoftenedGrows(db.runtime, Apply(db, step).runtime);
    } else if TouchesRuntime(step) {
      RowStepGrows(db, step);
    } else {
      OtherStepKeeps(db, step);
    }
  }

  lemma RuntimeSafe(db: Database, steps: seq<Step>)
    requires Inv(db) && Runs(db, steps)
    ensures RuntimeInv(ApplyAll(db, steps).runtime)
  {
    RunKeeps(db, steps);
  }

  /**
   Over any run, restarts included, a runtime operation that is settled or
   uncertain stays exactly as it is, a stopped session stays exactly as it is,
   and no session's birth generation ever changes.
   */
  lemma {:induction false} RunGrows(db: Database, steps: seq<Step>)
    requires Inv(db) && Runs(db, steps)
    ensures RuntimeGrows(db.runtime, ApplyAll(db, steps).runtime)
    decreases |steps|
  {
    if steps == [] {
      GrowsReflexive(db.runtime);
    } else {
      var init, last := steps[..|steps| - 1], steps[|steps| - 1];
      RunGrows(db, init);
      RuntimeSafe(db, init);
      StepGrows(ApplyAll(db, init), last);
      GrowsTransitive(db.runtime, ApplyAll(db, init).runtime, ApplyAll(db, steps).runtime);
    }
  }
}
