/** Every enabled commit keeps the runtime-v3 journal invariant. */
module RuntimeProofs {
  import opened Wrappers
  import opened Identity
  import opened HostRecords
  import opened HostCommits
  import opened RuntimeHandlers
  import opened HostInvariants

  // ----- commits that only move statuses and queue rows -----

  /** Same row up to a status change that neither settles nor revives it. */
  ghost predicate SoftenedRow(op: RuntimeOperation, op': RuntimeOperation) {
    || op' == op
    || (InFlight(op) && op' == op.(status := RuntimeStatus.UNKNOWN))
    || (op.status.ADMITTED? && op' == op.(status := EXECUTING))
  }

  ghost predicate SoftenedRows(operations: map<Id, RuntimeOperation>, operations': map<Id, RuntimeOperation>) {
    && operations'.Keys == operations.Keys
    && forall id :: id in operations ==> SoftenedRow(operations[id], operations'[id])
  }

  ghost predicate Softened(r: Runtime, r': Runtime) {
    && r'.sessions == r.sessions && r'.queue <= r.queue
    && SoftenedRows(r.operations, r'.operations)
    && (forall id :: id in r'.operations && InFlight(r'.operations[id]) && id in r.queue ==> id in r'.queue)
  }

  lemma SoftenedRowsKeep(operations: map<Id, RuntimeOperation>, operations': map<Id, RuntimeOperation>)
    requires RowsInv(operations) && SoftenedRows(operations, operations')
    ensures RowsInv(operations')
  {
    forall id | id in operations' ensures RuntimeRowInv(id, operations'[id]) {
      assert RuntimeRowInv(id, operations[id]) && SoftenedRow(operations[id], operations'[id]);
    }
  }

  lemma SoftenedPlaces(r: Runtime, r': Runtime)
    requires RowsInv(r.operations) && PlacesInv(r) && Softened(r, r')
    ensures PlacesInv(r')
  {
    forall id | id in r'.operations ensures PlacedIn(r'.sessions, r'.queue, r'.operations[id]) {
      assert PlacedIn(r.sessions, r.queue, r.operations[id]) && RuntimeRowInv(id, r.operations[id]);
      assert SoftenedRow(r.operations[id], r'.operations[id]);
    }
  }

  lemma SoftenedSettled(operations: map<Id, RuntimeOperation>, operations': map<Id, RuntimeOperation>, session: Id)
    requires SoftenedRows(operations, operations')
    ensures SettledOf(operations', session) == SettledOf(operations, session)
  {
  }

  lemma SoftenedChains(r: Runtime, r': Runtime)
    requires ChainsInv(r) && r'.sessions == r.sessions && SoftenedRows(r.operations, r'.operations)
    ensures ChainsInv(r')
  {
    forall id | id in r'.sessions ensures SessionInv(r'.operations, id, r'.sessions[id]) {
      assert SessionInv(r.operations, id, r.sessions[id]);
      SoftenedSettled(r.operations, r'.operations, id);
    }
  }

  lemma SoftenedUnresolved(operations: map<Id, RuntimeOperation>, operations': map<Id, RuntimeOperation>)
    requires OneUnresolved(operations) && SoftenedRows(operations, operations')
    ensures OneUnresolved(operations')
  {
    forall i, j | i in operations' && j in operations' && Unresolved(operations'[i]) && Unresolved(operations'[j])
                  && operations'[i].instance == operations'[j].instance
      ensures i == j
    {
      assert SoftenedRow(operations[i], operations'[i]) && SoftenedRow(operations[j], operations'[j]);
      assert Unresolved(operations[i]) && Unresolved(operations[j]);
    }
  }

  lemma SoftenedKeeps(r: Runtime, r': Runtime)
    requires RuntimeInv(r) && Softened(r, r')
    ensures RuntimeInv(r')
  {
    assert |r'.operations| == |r'.operations.Keys| == |r.operations|;
    SoftenedRowsKeep(r.operations, r'.operations);
    SoftenedPlaces(r, r');
    SoftenedChains(r, r');
    SoftenedUnresolved(r.operations, r'.operations);
  }

  lemma RotateSoftens(r: Runtime)
    ensures Softened(r, RotateRuntime(r))
  {
  }

  // ----- sessions -----

  lemma SavePlaces(r: Runtime, row: Session)
    requires PlacesInv(r) && MaySaveSession(r, row)
    ensures PlacesInv(r.(sessions := r.sessions[row.session := row]))
  {
    forall id | id in r.operations ensures PlacedIn(r.sessions[row.session := row], r.queue, r.operations[id]) {
      assert PlacedIn(r.sessions, r.queue, r.operations[id]);
    }
  }

  lemma NewSessionChain(r: Runtime, row: Session)
    requires PlacesInv(r) && MaySaveSession(r, row) && row.session !in r.sessions
    ensures SettledOf(r.operations, row.session) == map[]
    ensures SessionInv(r.operations, row.session, row)
  {
    forall id | id in r.operations ensures r.operations[id].session != row.session {
      assert PlacedIn(r.sessions, r.queue, r.operations[id]);
    }
    assert EndTurns(map[]) == {} && PreGenerations(map[]) == {};
  }

  lemma SaveChains(r: Runtime, row: Session)
    requires PlacesInv(r) && ChainsInv(r) && MaySaveSession(r, row)
    ensures ChainsInv(r.(sessions := r.sessions[row.session := row]))
  {
    var r' := r.(sessions := r.sessions[row.session := row]);
    if row.session !in r.sessions { NewSessionChain(r, row); }
    forall id | id in r'.sessions ensures SessionInv(r'.operations, id, r'.sessions[id]) {
      if id in r.sessions { assert SessionInv(r.operations, id, r.sessions[id]); }
    }
  }

  lemma SaveActive(r: Runtime, row: Session)
    requires OneActiveSession(r.sessions) && MaySaveSession(r, row)
    ensures OneActiveSession(r.sessions[row.session := row])
  {
    var after := r.sessions[row.session := row];
    forall s, t | s in after && t in after && !after[s].stopped && !after[t].stopped
                  && after[s].instance == after[t].instance
      ensures s == t
    {
      if row.session !in r.sessions {
        assert s !in ActiveSessions(r, row.instance) && t !in ActiveSessions(r, row.instance);
      }
    }
  }

  lemma SaveKeeps(r: Runtime, row: Session)
    requires RuntimeInv(r) && MaySaveSession(r, row)
    ensures RuntimeInv(r.(sessions := r.sessions[row.session := row]))
  {
    SavePlaces(r, row);
    SaveChains(r, row);
    SaveActive(r, row);
  }

  // ----- admission -----

  lemma AdmittedRow(s: Session, id: Id, action: LegalAction)
    requires SessionRowInv(s.session, s)
    ensures RuntimeRowInv(id, AdmittedOperation(s, id, action))
  {
  }

  lemma AdmitPlaces(r: Runtime, op: RuntimeOperation)
    requires RowsInv(r.operations) && PlacesInv(r) && PlacedIn(r.sessions, r.queue + {op.operationId}, op)
    ensures PlacesInv(AdmitRuntimeRows(r, op))
  {
    var r' := AdmitRuntimeRows(r, op);
    forall id | id in r'.operations ensures PlacedIn(r'.sessions, r'.queue, r'.operations[id]) {
      if id != op.operationId {
        assert RuntimeRowInv(id, r.operations[id]) && PlacedIn(r.sessions, r.queue, r.operations[id]);
      }
    }
  }

  lemma AdmitSettled(operations: map<Id, RuntimeOperation>, op: RuntimeOperation, session: Id)
    requires op.operationId !in operations && !op.status.SETTLED?
    ensures SettledOf(operations[op.operationId := op], session) == SettledOf(operations, session)
  {
  }

  lemma AdmitChains(r: Runtime, op: RuntimeOperation)
    requires ChainsInv(r) && op.operationId !in r.operations && !op.status.SETTLED?
    ensures ChainsInv(AdmitRuntimeRows(r, op))
  {
    var r' := AdmitRuntimeRows(r, op);
    forall id | id in r'.sessions ensures SessionInv(r'.operations, id, r'.sessions[id]) {
      assert SessionInv(r.operations, id, r.sessions[id]);
      AdmitSettled(r.operations, op, id);
    }
  }

  lemma AdmitUnresolved(r: Runtime, op: RuntimeOperation)
    requires OneUnresolved(r.operations) && UnresolvedOfInstance(r, op.instance) == {}
    ensures OneUnresolved(r.operations[op.operationId := op])
  {
    forall id | id in r.operations && Unresolved(r.operations[id]) ensures r.operations[id].instance != op.instance {
      assert id !in UnresolvedOfInstance(r, op.instance);
    }
  }

  lemma AdmittedFits(r: Runtime, op: RuntimeOperation)
    requires ChainsInv(r) && op.session in r.sessions && !r.sessions[op.session].stopped
    requires op == AdmittedOperation(r.sessions[op.session], op.operationId, op.action)
    requires op.action in r.sessions[op.session].legalActions
    ensures RuntimeRowInv(op.operationId, op)
    ensures PlacedIn(r.sessions, r.queue + {op.operationId}, op)
  {
    assert SessionInv(r.operations, op.session, r.sessions[op.session]);
    AdmittedRow(r.sessions[op.session], op.operationId, op.action);
  }

  lemma AdmitRows(operations: map<Id, RuntimeOperation>, op: RuntimeOperation)
    requires RowsInv(operations) && RuntimeRowInv(op.operationId, op) && op.operationId !in operations
    ensures RowsInv(operations[op.operationId := op])
    ensures |operations[op.operationId := op]| == |operations| + 1
  {
    CountExtends(operations, op.operationId, op);
  }

  lemma AdmitKeeps(db: Database, op: RuntimeOperation)
    requires RuntimeInv(db.runtime) && MayAdmitRuntime(db, op)
    ensures RuntimeInv(AdmitRuntimeRows(db.runtime, op))
  {
    AdmittedFits(db.runtime, op);
    AdmitRows(db.runtime.operations, op);
    AdmitPlaces(db.runtime, op);
    AdmitChains(db.runtime, op);
    AdmitUnresolved(db.runtime, op);
  }

  // ----- settlement -----

  lemma {:induction false} SubsetAtMost<T>(a: set<T>, b: set<T>)
    requires a <= b
    ensures |a| <= |b|
    decreases |a|
  {
    if a != {} {
      var x :| x in a;
      SubsetAtMost(a - {x}, b - {x});
    }
  }

  /** The 64-row bound keeps every turn index far below its validator's limit. */
  lemma TurnIndexBounded(r: Runtime, session: Id)
    requires ChainsInv(r) && |r.operations| <= MAX_RUNTIME_OPERATIONS && session in r.sessions
    ensures 1 <= r.sessions[session].observation.turnIndex <= 1 + MAX_RUNTIME_OPERATIONS
  {
    assert SessionInv(r.operations, session, r.sessions[session]);
    SubsetAtMost(EndTurns(SettledOf(r.operations, session)), r.operations.Keys);
  }

  lemma PreGenerationsExtend(settled: map<Id, RuntimeOperation>, id: Id, op: RuntimeOperation)
    requires id !in settled
    ensures PreGenerations(settled[id := op]) == PreGenerations(settled) + {op.preGeneration}
  {
    var after := settled[id := op];
    forall g | g in PreGenerations(settled) + {op.preGeneration} ensures g in PreGenerations(after) {
      if g == op.preGeneration { assert after[id].preGeneration == g; }
      else { var other :| other in settled && settled[other].preGeneration == g; assert after[other].preGeneration == g; }
    }
  }

  lemma EndTurnsExtend(settled: map<Id, RuntimeOperation>, id: Id, op: RuntimeOperation)
    requires id !in settled
    ensures |EndTurns(settled[id := op])| == |EndTurns(settled)| + if op.action.kind.END_TURN? then 1 else 0
  {
    assert EndTurns(settled[id := op]) == EndTurns(settled) + if op.action.kind.END_TURN? then {id} else {};
  }

  /** Settling one operation extends its session's chain by exactly one link. */
  lemma ChainExtends(settled: map<Id, RuntimeOperation>, generation: int, turnIndex: int, id: Id, op: RuntimeOperation)
    requires Chain(settled, generation, turnIndex) && id !in settled && op.preGeneration == generation
    ensures Chain(settled[id := op], generation + 1, turnIndex + if op.action.kind.END_TURN? then 1 else 0)
  {
    CountExtends(settled, id, op);
    PreGenerationsExtend(settled, id, op);
    IntervalExtends(generation - |settled|, generation);
    EndTurnsExtend(settled, id, op);
  }

  lemma CountExtends(settled: map<Id, RuntimeOperation>, id: Id, op: RuntimeOperation)
    requires id !in settled
    ensures |settled[id := op]| == |settled| + 1
  {
    assert settled[id := op].Keys == settled.Keys + {id};
    assert |settled[id := op]| == |settled[id := op].Keys|;
  }

  lemma IntervalExtends(low: int, high: int)
    requires low <= high
    ensures Interval(low, high + 1) == Interval(low, high) + {high}
  {
  }

  lemma SettleSettled(operations: map<Id, RuntimeOperation>, id: Id, op: RuntimeOperation, session: Id)
    requires id in operations && !operations[id].status.SETTLED? && op.status.SETTLED? && op.session == operations[id].session
    ensures SettledOf(operations[id := op], session)
         == if op.session == session then SettledOf(operations, session)[id := op] else SettledOf(operations, session)
    ensures id !in SettledOf(operations, session)
  {
  }

  lemma SettledRow(s: Session, op: RuntimeOperation, witnessId: Id)
    requires RuntimeRowInv(op.operationId, op) && op.status.EXECUTING? && SessionRowInv(op.session, s)
    requires op.preStateId == s.stateId && op.preGeneration == s.generation && InRange(s.generation + 1)
    requires 0 <= s.observation.turnIndex < 65_535
    ensures RuntimeRowInv(op.operationId, op.(
              status := RuntimeStatus.SETTLED,
              proof := Some(ProofOf(s, op, witnessId)), result := Some(ResultOf(s, op.action))))
  {
  }

  /** Whatever else is in flight belongs to another instance, hence to another session. */
  lemma SettlePlaces(r: Runtime, id: Id, proof: RuntimeWitness, result: RuntimeResult, next: Session)
    requires PlacesInv(r) && RowsInv(r.operations) && OneUnresolved(r.operations)
    requires id in r.operations && Unresolved(r.operations[id])
    requires next.session == r.operations[id].session && next.session in r.sessions
    requires BelongsTo(r.operations[id], next) && next.legalActions == r.sessions[next.session].legalActions
    ensures PlacesInv(SettleRuntimeRows(r, id, proof, result, next))
  {
    var r' := SettleRuntimeRows(r, id, proof, result, next);
    var op := r.operations[id];
    assert PlacedIn(r.sessions, r.queue, op);
    forall other | other in r'.operations ensures PlacedIn(r'.sessions, r'.queue, r'.operations[other]) {
      assert PlacedIn(r.sessions, r.queue, r.operations[other]);
      assert RuntimeRowInv(other, r.operations[other]);
      if other != id && InFlight(r.operations[other]) {
        assert Unresolved(r.operations[other]);
        assert r.operations[other].instance != op.instance;
      }
    }
  }

  lemma SettleChain(operations: map<Id, RuntimeOperation>, s: Session, id: Id, op: RuntimeOperation, next: Session)
    requires id in operations && !operations[id].status.SETTLED? && op.status.SETTLED?
    requires SessionInv(operations, s.session, s) && op.session == operations[id].session == s.session == next.session
    requires op.preGeneration == s.generation && next.generation == s.generation + 1 && SessionRowInv(next.session, next)
    requires next.observation.turnIndex == s.observation.turnIndex + if op.action.kind.END_TURN? then 1 else 0
    ensures SessionInv(operations[id := op], next.session, next)
  {
    SettleSettled(operations, id, op, s.session);
    ChainExtends(SettledOf(operations, s.session), s.generation, s.observation.turnIndex, id, op);
  }

  lemma SettleChains(r: Runtime, id: Id, op: RuntimeOperation, next: Session)
    requires ChainsInv(r) && id in r.operations && !r.operations[id].status.SETTLED? && op.status.SETTLED?
    requires op.session == r.operations[id].session == next.session && next.session in r.sessions
    requires SessionInv(r.operations[id := op], next.session, next)
    ensures ChainsInv(r.(operations := r.operations[id := op], sessions := r.sessions[next.session := next]))
  {
    forall t | t in r.sessions && t != next.session ensures SessionInv(r.operations[id := op], t, r.sessions[t]) {
      assert SessionInv(r.operations, t, r.sessions[t]);
      SettleSettled(r.operations, id, op, t);
    }
  }

  lemma SettleRows(operations: map<Id, RuntimeOperation>, id: Id, op: RuntimeOperation)
    requires RowsInv(operations) && OneUnresolved(operations) && id in operations && RuntimeRowInv(id, op)
    requires !Unresolved(op)
    ensures RowsInv(operations[id := op]) && OneUnresolved(operations[id := op])
    ensures |operations[id := op]| == |operations|
  {
    assert operations[id := op].Keys == operations.Keys;
    assert |operations[id := op]| == |operations[id := op].Keys|;
  }

  lemma SettleActive(sessions: map<Id, Session>, next: Session)
    requires OneActiveSession(sessions) && next.session in sessions
    requires next.instance == sessions[next.session].instance && next.stopped == sessions[next.session].stopped
    ensures OneActiveSession(sessions[next.session := next])
  {
  }

  lemma SettleKeeps(db: Database, id: Id, proof: RuntimeWitness, result: RuntimeResult, next: Session)
    requires RuntimeInv(db.runtime) && MaySettleRuntime(db, id, proof, result, next)
    ensures RuntimeInv(SettleRuntimeRows(db.runtime, id, proof, result, next))
  {
    var r := db.runtime;
    var op := r.operations[id];
    var s := r.sessions[op.session];
    var settled := op.(status := RuntimeStatus.SETTLED, proof := Some(proof), result := Some(result));
    SettledFits(r, id, proof.witnessId);
    SettleRows(r.operations, id, settled);
    SettlePlaces(r, id, proof, result, next);
    SettleChains(r, id, settled, next);
    SettleActive(r.sessions, next);
  }

  /** The proof, result and session written by a settlement satisfy their own invariants. */
  lemma SettledFits(r: Runtime, id: Id, witnessId: Id)
    requires RowsInv(r.operations) && PlacesInv(r) && ChainsInv(r) && |r.operations| <= MAX_RUNTIME_OPERATIONS
    requires id in r.operations && r.operations[id].status.EXECUTING?
    requires r.operations[id].session in r.sessions
    requires var op, s := r.operations[id], r.sessions[r.operations[id].session];
             op.preStateId == s.stateId && op.preGeneration == s.generation && InRange(s.generation + 1)
    ensures var op, s := r.operations[id], r.sessions[r.operations[id].session];
            var settled := op.(status := RuntimeStatus.SETTLED, proof := Some(ProofOf(s, op, witnessId)),
                               result := Some(ResultOf(s, op.action)));
            var next := SessionAfter(s, s, op);
            && RuntimeRowInv(id, settled) && SessionInv(r.operations[id := settled], op.session, next)
            && next.session == op.session && BelongsTo(op, next)
  {
    var op, s := r.operations[id], r.sessions[r.operations[id].session];
    assert RuntimeRowInv(id, op) && PlacedIn(r.sessions, r.queue, op) && SessionInv(r.operations, op.session, s);
    TurnIndexBounded(r, op.session);
    SettledRow(s, op, witnessId);
    var settled := op.(status := RuntimeStatus.SETTLED, proof := Some(ProofOf(s, op, witnessId)),
                       result := Some(ResultOf(s, op.action)));
    SettleChain(r.operations, s, id, settled, SessionAfter(s, s, op));
  }
}
