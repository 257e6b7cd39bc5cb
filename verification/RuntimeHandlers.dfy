/**
 Specification of the runtime-v3 request path: session creation, dispatch,
 wait with its two-commit drain, and recovery.
 */
module RuntimeHandlers {
  import opened Wrappers
  import opened Identity
  import opened FixtureClock
  import opened HostRecords
  import opened HostCommits
  import opened HostReplies

  datatype Recovery = ReobserveState | Reconcile(operation: Id) | ReleaseLease | StopEpisode

  datatype RuntimeKind =
    | StateRequest
    | LegalActionsRequest(stateId: Id)
    | ReobserveRequest
    | DispatchRequest(operation: Id, stateId: Id, action: LegalAction)
    | WaitRequest(operation: Id)
    | RecoverRequest(recovery: Recovery)

  datatype RuntimeRequest = RuntimeRequest(
    kind: RuntimeKind, instance: Id, session: Id, leaseId: Id, epoch: int, generation: int)

  function Respond(steps: seq<Step>, reply: RuntimeReply): Outcome { Say(steps, RuntimeAnswer(reply)) }

  /** The join of lease and fence that grants runtime mutation authority. */
  predicate AuthorityCurrent(a: Authority, instance: Id, leaseId: Id, epoch: int) {
    && a.lease.Some? && a.fence.Some?
    && var grant, fence := a.lease.value.grant, a.fence.value;
    && grant.holder == fence.holder && grant.fenceId == fence.fenceId
    && grant.holder.instance == instance && grant.leaseId == leaseId && grant.epoch == epoch
    && !grant.revoked && grant.expiresTick > a.clock
    && InPositiveRange(fence.authorityGeneration)
    && fence.fenceGeneration == fence.authorityGeneration
    && fence.state.READY?
  }

  // ----- validators of stored rows -----

  predicate ValidObservation(o: Observation) { InRange(o.generation) && 0 <= o.turnIndex <= 65_535 }

  predicate ValidTransition(t: Transition) {
    InRange(t.fromGeneration) && InRange(t.toGeneration) && t.fromGeneration < t.toGeneration
  }

  predicate ValidRuntimeWitness(w: RuntimeWitness, id: Id, actionDigest: Digest) {
    && w.operationId == id && w.action == actionDigest && w.source.HOST_GAME_THREAD?
    && InRange(w.preGeneration) && InRange(w.generation) && w.preGeneration < w.generation
  }

  predicate ValidRuntimeResult(result: RuntimeResult, preGeneration: int) {
    && InRange(result.generation) && ValidObservation(result.observation) && ValidTransition(result.transition)
    && result.observation.stateId == result.stateId && result.observation.generation == result.generation
    && result.transition.stateId == result.stateId && result.transition.toGeneration == result.generation
    && result.transition.fromGeneration == preGeneration
  }

  /** `validate_runtime_operation` on a row read back from the journal. */
  function CheckRuntimeOperation(op: RuntimeOperation): Option<FixtureError> {
    if !InRange(op.epoch) || !InRange(op.preGeneration) then Some(Invalid)
    else if op.actionDigest != ActionDigest(op.action) then Some(Conflict)
    else if op.proof.Some? && !ValidRuntimeWitness(op.proof.value, op.operationId, op.actionDigest) then Some(Invalid)
    else if op.result.Some? && !ValidRuntimeResult(op.result.value, op.preGeneration) then Some(Invalid)
    else if op.proof.Some? && op.result.Some?
            && (op.proof.value.preStateId != op.preStateId || op.proof.value.preGeneration != op.preGeneration
                || op.proof.value.stateId != op.result.value.stateId
                || op.proof.value.generation != op.result.value.generation)
    then Some(Invalid)
    else if (op.status.SETTLED? || op.status.RECONCILED?) && (op.proof.None? || op.result.None?) then Some(Invalid)
    else if (InFlight(op) || op.status.REJECTED?) && (op.proof.Some? || op.result.Some?) then Some(Invalid)
    else None
  }

  function LookupOperation(r: Runtime, id: Id): Result<Option<RuntimeOperation>, FixtureError> {
    if id !in r.operations then Ok(None)
    else
      var refusal := CheckRuntimeOperation(r.operations[id]);
      if refusal.Some? then Err(refusal.value) else Ok(Some(r.operations[id]))
  }

  predicate ValidSession(s: Session) {
    && InRange(s.epoch) && InRange(s.generation) && ValidObservation(s.observation)
    && s.observation.stateId == s.stateId && s.observation.generation == s.generation
  }

  function LookupSession(r: Runtime, session: Id): Result<Option<Session>, FixtureError> {
    if session !in r.sessions then Ok(None)
    else if ValidSession(r.sessions[session]) then Ok(Some(r.sessions[session]))
    else Err(Invalid)
  }

  function UnresolvedOfInstance(r: Runtime, instance: Id): set<Id> {
    set id | id in r.operations && r.operations[id].instance == instance && Unresolved(r.operations[id])
  }

  function UnresolvedOfSession(r: Runtime, session: Id): set<Id> {
    set id | id in r.operations && r.operations[id].session == session && Unresolved(r.operations[id])
  }

  function ActiveSessions(r: Runtime, instance: Id): set<Id> {
    set id | id in r.sessions && r.sessions[id].instance == instance && !r.sessions[id].stopped
  }

  /** First unresolved operation of a query result, validated as it is read. */
  function FirstOperation(r: Runtime, ids: set<Id>): Result<Option<RuntimeOperation>, FixtureError> {
    if ids == {} then Ok(None) else LookupOperation(r, Least(ids))
  }

  function FirstSession(r: Runtime, ids: set<Id>): Result<Option<Session>, FixtureError> {
    if ids == {} then Ok(None) else LookupSession(r, Least(ids))
  }

  predicate BelongsTo(op: RuntimeOperation, s: Session) {
    op.instance == s.instance && op.session == s.session && op.leaseId == s.leaseId && op.epoch == s.epoch
  }

  predicate NamesSession(s: Session, request: RuntimeRequest) {
    s.instance == request.instance && s.leaseId == request.leaseId && s.epoch == request.epoch
  }

  /** `mark_runtime_operation_unknown_for_context` would change the row. */
  predicate MarkableInContext(r: Runtime, id: Id, request: RuntimeRequest) {
    && id in r.operations
    && var op := r.operations[id];
    && op.instance == request.instance && op.session == request.session
    && op.leaseId == request.leaseId && op.epoch == request.epoch && InFlight(op)
  }

  function MarkInContext(r: Runtime, id: Id, request: RuntimeRequest): seq<Step> {
    if MarkableInContext(r, id, request) then [MarkRuntimeUnknown(id)] else []
  }

  // ----- responses -----

  /** `runtime_operation_response`: what a journal row answers on its own. */
  function OperationAnswer(kind: RuntimeKind, s: Session, op: RuntimeOperation): Result<RuntimeReply, FixtureError> {
    match op.status
    case SETTLED => if op.result.None? then Err(Invalid) else Ok(Completed(op.operationId, op.result.value))
    case RECONCILED => if op.result.None? then Err(Invalid) else Ok(Completed(op.operationId, op.result.value))
    case ADMITTED => Ok(Accepted(op.operationId, s.observation))
    case REJECTED =>
      if kind.WaitRequest? then Ok(Uncertain(OperationRejected, s.generation))
      else Ok(Rejected(op.operationId, OperationRejected, s.observation))
    case EXECUTING => Ok(Uncertain(OperationUnknown, s.generation))
    case UNKNOWN => Ok(Uncertain(OperationUnknown, s.generation))
  }

  function AnswerAfter(steps: seq<Step>, answer: Result<RuntimeReply, FixtureError>): Outcome {
    if answer.Err? then Outcome(steps, Err(answer.error), Send) else Respond(steps, answer.value)
  }

  // ----- dispatch -----

  function AdmittedOperation(s: Session, id: Id, action: LegalAction): RuntimeOperation {
    RuntimeOperation(id, s.instance, s.session, s.leaseId, s.epoch, action, ActionDigest(action),
                     s.stateId, s.generation, ADMITTED, None, None)
  }

  function DispatchRuntime(r: Runtime, request: RuntimeRequest, s: Session): Outcome
    requires request.kind.DispatchRequest?
  {
    var DispatchRequest(id, stateId, action) := request.kind;
    var existing := LookupOperation(r, id);
    if existing.Err? then Fail(existing.error)
    else if existing.value.Some? then
      var op := existing.value.value;
      if !BelongsTo(op, s) || op.actionDigest != ActionDigest(action) || op.action != action
      then Respond([], Rejected(id, OperationConflict, s.observation))
      else AnswerAfter([], OperationAnswer(request.kind, s, op))
    else if request.generation != s.generation || stateId != s.stateId then
      Respond([], Rejected(id, StaleGeneration, s.observation))
    else if action !in s.legalActions then Respond([], Rejected(id, IllegalAction, s.observation))
    else
      var active := FirstOperation(r, UnresolvedOfSession(r, s.session));
      var barrier := FirstOperation(r, UnresolvedOfInstance(r, s.instance));
      if active.Err? then Fail(active.error)
      else if active.value.Some? then Respond([], Rejected(id, ActiveOperation, s.observation))
      else if barrier.Err? then Fail(barrier.error)
      else if barrier.value.Some? && barrier.value.value.operationId != id then
        Respond([], Rejected(id, ActiveSession, s.observation))
      else if |r.operations| >= MAX_RUNTIME_OPERATIONS then
        Respond([], Rejected(id, RuntimeCapacity, s.observation))
      else if id in r.queue then Fail(SqlError)
      else Respond([AdmitRuntime(AdmittedOperation(s, id, action))], Accepted(id, s.observation))
  }

  // ----- wait and drain -----

  function NextObservation(s: Session, action: LegalAction): Observation {
    Observation(s.observation.stateId, s.generation + 1,
                if action.kind.END_TURN? then SaturatingAdd(s.observation.turnIndex, 1) else s.observation.turnIndex)
  }

  function ResultOf(s: Session, action: LegalAction): RuntimeResult {
    RuntimeResult(s.stateId, s.generation + 1, NextObservation(s, action), s.legalActions,
                  Transition(s.generation, s.generation + 1, s.stateId, action.kind))
  }

  function ProofOf(s: Session, op: RuntimeOperation, witnessId: Id): RuntimeWitness {
    RuntimeWitness(witnessId, op.operationId, op.actionDigest, HOST_GAME_THREAD, op.preStateId, op.preGeneration,
                   s.stateId, s.generation + 1,
                   RuntimeEffectDigest(op.operationId, op.actionDigest, s.generation + 1))
  }

  function SessionAfter(row: Session, s: Session, op: RuntimeOperation): Session {
    row.(generation := s.generation + 1, observation := NextObservation(s, op.action),
         lastOperation := Some(op.operationId), lastAction := Some(op.action.actionId))
  }

  /** From the commit that marks the operation executing to the one that settles it. */
  function ExecuteRuntime(r: Runtime, s: Session, op: RuntimeOperation, witnessId: Id): Outcome {
    var id := op.operationId;
    if op.action !in s.legalActions then
      Respond([BeginRuntime(id), RejectRuntime(id), DequeueRuntime(id)],
              Rejected(id, PrestateChanged, s.observation))
    else if s.generation + 1 > I64_MAX || !ValidObservation(NextObservation(s, op.action))
            || !ValidTransition(ResultOf(s, op.action).transition)
            || !ValidRuntimeWitness(ProofOf(s, op, witnessId), id, op.actionDigest) then
      Outcome([BeginRuntime(id)], Err(Invalid), Send)
    else if s.session !in r.sessions || r.sessions[s.session].generation != op.preGeneration
            || r.sessions[s.session].stateId != op.preStateId then
      Outcome([BeginRuntime(id)], Err(Conflict), Send)
    else
      var proof, result := ProofOf(s, op, witnessId), ResultOf(s, op.action);
      var settled := op.(status := RuntimeStatus.SETTLED, proof := Some(proof), result := Some(result));
      var steps := [BeginRuntime(id), SettleRuntime(id, proof, result, SessionAfter(r.sessions[s.session], s, op))];
      var refusal := CheckRuntimeOperation(settled);
      if refusal.Some? then Outcome(steps, Err(refusal.value), Send)
      else Respond(steps, Completed(id, result))
  }

  function Drain(db: Database, request: RuntimeRequest, s: Session, op: RuntimeOperation, witnessId: Id): Outcome {
    var id, r := op.operationId, db.runtime;
    if !op.status.ADMITTED? then AnswerAfter([], OperationAnswer(request.kind, s, op))
    else if !AuthorityCurrent(db.authority, op.instance, op.leaseId, op.epoch) then
      Respond([MarkRuntimeUnknown(id)], Uncertain(StaleLease, s.generation))
    else if op.preStateId != s.stateId || op.preGeneration != s.generation then
      Respond([MarkRuntimeUnknown(id)], Uncertain(PrestateChanged, s.generation))
    else if id !in r.queue then
      Respond([MarkRuntimeUnknown(id)], Uncertain(QueueMissing, s.generation))
    else ExecuteRuntime(r, s, op, witnessId)
  }

  function WaitRuntime(db: Database, request: RuntimeRequest, s: Session, witnessId: Id): Outcome
    requires request.kind.WaitRequest?
  {
    var found := LookupOperation(db.runtime, request.kind.operation);
    if found.Err? then Fail(found.error)
    else if found.value.None? then Respond([], Uncertain(OperationNotFound, s.generation))
    else if !BelongsTo(found.value.value, s) then Respond([], Uncertain(StaleLease, s.generation))
    else Drain(db, request, s, found.value.value, witnessId)
  }

  // ----- recovery -----

  function ReconcileRuntimeOperation(db: Database, request: RuntimeRequest, s: Session, id: Id): Outcome {
    var found := LookupOperation(db.runtime, id);
    if found.Err? then Fail(found.error)
    else if found.value.None? then Respond([], Uncertain(OperationNotFound, s.generation))
    else
      var op := found.value.value;
      if !BelongsTo(op, s) then Respond([], Uncertain(StaleLease, s.generation))
      else if op.status.SETTLED? || op.status.RECONCILED? then AnswerAfter([], OperationAnswer(request.kind, s, op))
      else if op.status.UNKNOWN? && op.proof.Some? && op.result.Some? then
        Respond([ReconcileRuntime(id), DequeueRuntime(id)], Completed(id, op.result.value))
      else Respond([], Uncertain(EffectWitnessMissing, s.generation))
  }

  function StopSteps(s: Session, release: bool): seq<Step> {
    (if release then [RevokeLease(s.leaseId, s.epoch)] else [])
    + [MarkSessionUnknown(s.session), DequeueSessionUnknown(s.session), SaveSession(s.(stopped := true))]
  }

  function RecoverRuntime(db: Database, request: RuntimeRequest, s: Session): Outcome
    requires request.kind.RecoverRequest?
  {
    match request.kind.recovery
    case ReobserveState => Respond([], Recovered(s.observation))
    case Reconcile(id) => ReconcileRuntimeOperation(db, request, s, id)
    case ReleaseLease => Respond(StopSteps(s, true), Cancelled(s.observation))
    case StopEpisode => Respond(StopSteps(s, false), Cancelled(s.observation))
  }

  // ----- request path -----

  predicate IsRead(kind: RuntimeKind) {
    kind.StateRequest? || kind.LegalActionsRequest? || kind.ReobserveRequest?
  }

  predicate IsReconcile(kind: RuntimeKind) { kind.RecoverRequest? && kind.recovery.Reconcile? }

  predicate IsObservingRecovery(kind: RuntimeKind) { kind.RecoverRequest? && kind.recovery.ReobserveState? }

  /** The operation a request without current authority may still mark uncertain. */
  function StaleMark(r: Runtime, request: RuntimeRequest): seq<Step> {
    match request.kind
    case WaitRequest(id) => MarkInContext(r, id, request)
    case RecoverRequest(Reconcile(id)) => MarkInContext(r, id, request)
    case _ => []
  }

  function ServeSession(db: Database, request: RuntimeRequest, s: Session, current: bool, witnessId: Id): Outcome {
    var kind := request.kind;
    if !current && kind.DispatchRequest? then
      if MarkableInContext(db.runtime, kind.operation, request)
      then Respond([MarkRuntimeUnknown(kind.operation)], Uncertain(StaleLease, s.generation))
      else Respond([], Rejected(kind.operation, StaleLease, s.observation))
    else if current && IsReconcile(kind) && !NamesSession(s, request) then RecoverRuntime(db, request, s)
    else if !current && (kind.WaitRequest? || (kind.RecoverRequest? && !IsObservingRecovery(kind))) then
      Respond(StaleMark(db.runtime, request), Uncertain(StaleLease, s.generation))
    else if !NamesSession(s, request) then
      Respond([], if IsRead(kind) then Observed(s.observation) else Uncertain(StaleLease, s.generation))
    else if IsRead(kind) then Respond([], Observed(s.observation))
    else if kind.RecoverRequest? then RecoverRuntime(db, request, s)
    else if s.stopped then Respond([], Uncertain(EpisodeStopped, s.generation))
    else if kind.DispatchRequest? then DispatchRuntime(db.runtime, request, s)
    else WaitRuntime(db, request, s, witnessId)
  }

  function FreshSession(request: RuntimeRequest): Session {
    var stateId := match request.kind
                   case LegalActionsRequest(id) => id
                   case DispatchRequest(_, id, _) => id
                   case _ => SyntheticStateId;
    Session(request.instance, request.session, request.leaseId, request.epoch, stateId, request.generation,
            Observation(stateId, request.generation, 1), SyntheticLegalActions, None, None, false)
  }

  function BarredBy(request: RuntimeRequest, s: Session): Outcome {
    if request.kind.DispatchRequest?
    then Respond([], Rejected(request.kind.operation, ActiveSession, s.observation))
    else Fail(Conflict)
  }

  /** What refuses a new session: no authority, an unresolved operation, or an unstopped session. */
  function SessionBarrier(r: Runtime, request: RuntimeRequest, current: bool): Option<Outcome> {
    var unresolved := FirstOperation(r, UnresolvedOfInstance(r, request.instance));
    var active := FirstSession(r, ActiveSessions(r, request.instance));
    if !current then Some(Fail(Stale(LeaseSubject)))
    else if unresolved.Err? then Some(Fail(unresolved.error))
    else if unresolved.value.Some? then
      var historical := LookupSession(r, unresolved.value.value.session);
      if historical.Err? then Some(Fail(historical.error))
      else if historical.value.None? then Some(Fail(HostNotReady))
      else Some(BarredBy(request, historical.value.value))
    else if active.Err? then Some(Fail(active.error))
    else if active.value.Some? then Some(BarredBy(request, active.value.value))
    else None
  }

  /** First request of an unknown session: refused by any barrier, otherwise it creates the row. */
  function OpenSession(db: Database, request: RuntimeRequest, current: bool, witnessId: Id): Outcome {
    var barrier := SessionBarrier(db.runtime, request, current);
    if barrier.Some? then barrier.value
    else
      var step := SaveSession(FreshSession(request));
      var rest := ServeSession(Apply(db, step), request, FreshSession(request), current, witnessId);
      rest.(steps := [step] + rest.steps)
  }

  function RuntimeOutcome(db: Database, request: RuntimeRequest, witnessId: Id): Outcome {
    var current := AuthorityCurrent(db.authority, request.instance, request.leaseId, request.epoch);
    var found := LookupSession(db.runtime, request.session);
    if !InRange(request.epoch) || !InRange(request.generation) then Fail(Invalid)
    else if found.Err? then Fail(found.error)
    else if found.value.Some? then ServeSession(db, request, found.value.value, current, witnessId)
    else OpenSession(db, request, current, witnessId)
  }
}
