/**
 What every durable state of the fixture satisfies, and when a commit may be
 made.  `Enabled` collects, for each commit, what its handler has established by
 the time it runs; three of the commits are never enabled.
 */
module HostInvariants {
  import opened Wrappers
  import opened Identity
  import opened FixtureClock
  import opened HostRecords
  import opened HostCommits
  import opened JournalHandlers
  import opened RuntimeHandlers

  // ----- fencing and leases -----

  ghost predicate FenceInv(f: FenceRow) {
    && InPositiveRange(f.authorityGeneration) && f.fenceGeneration == f.authorityGeneration
    && InRange(f.epochCounter) && ValidPolicy(f.ttl, f.renewal)
  }

  /** The current lease: its deadline arithmetic, its text, its history row and its fence. */
  ghost predicate LeaseInv(a: Authority)
    requires a.lease.Some? && a.fence.Some?
  {
    var g, f := a.lease.value.grant, a.fence.value;
    && a.lease.value.token == FIXTURE_TOKEN
    && g.epoch == f.epochCounter && ValidPolicy(g.ttl, g.renewal)
    && 0 <= g.issuedTick && 0 <= g.renewSequence
    && g.expiresTick == a.clock + g.ttl
    && g.expiresTick == g.issuedTick + g.ttl + g.renewSequence * g.renewal
    && g.issuedAt == TimestampForTick(g.issuedTick) && g.expiresAt == TimestampForTick(g.expiresTick)
    && g.leaseId in a.history && a.history[g.leaseId].grant == g
    && (!g.revoked ==> f.state.READY? && g.holder == f.holder && g.fenceId == f.fenceId)
  }

  /** Every history row is filed under its id; all but the current one are revoked and older. */
  ghost predicate HistoryRowInv(a: Authority, id: Id)
    requires a.lease.Some? && a.fence.Some? && id in a.history
  {
    var g := a.history[id].grant;
    && g.leaseId == id && a.history[id].tokenDigest == TokenDigest(FIXTURE_TOKEN)
    && 1 <= g.epoch <= a.fence.value.epochCounter
    && (id != a.lease.value.grant.leaseId ==> g.revoked && g.epoch < a.fence.value.epochCounter)
  }

  ghost predicate EpochsUnique(history: map<Id, HistoryRow>) {
    forall i, j :: i in history && j in history && history[i].grant.epoch == history[j].grant.epoch ==> i == j
  }

  ghost predicate AuthorityInv(a: Authority) {
    && 0 <= a.clock < CLOCK_LIMIT
    && (a.fence.Some? ==> FenceInv(a.fence.value))
    && (a.lease.None? ==> a.history == map[] && (a.fence.Some? ==> a.fence.value.epochCounter == 0))
    && (a.lease.Some? ==>
          && a.fence.Some? && LeaseInv(a)
          && (forall id :: id in a.history ==> HistoryRowInv(a, id)))
    && EpochsUnique(a.history)
  }

  ghost predicate LeaseLive(a: Authority) { a.lease.Some? && !a.lease.value.grant.revoked }

  // ----- sideband journal -----

  ghost predicate TicketInv(a: Authority, id: Id, op: OperationRow) {
    && op.ticket.Some? && a.lease.Some?
    && var t, g := op.ticket.value, a.lease.value.grant;
    && t.operationId == id && t.payload == op.payload && t.state.ISSUED?
    && InPositiveRange(t.epoch) && ValidTimestamp(t.expiresAt)
    && t.epoch == g.epoch && t.boot == g.holder.boot && t.incarnation == g.holder.incarnation
    && t.fenceId == g.fenceId && op.ticketExpiresTick <= g.expiresTick
  }

  ghost predicate WitnessInv(id: Id, op: OperationRow, w: Witness) {
    && w.operationId == id && w.payload == op.payload && w.source.HOST_GAME_THREAD?
    && w.boot == op.context.holder.boot && w.incarnation == op.context.holder.incarnation
    && w.stateId == op.boundary.stateId && w.generation == op.boundary.generation
    && w.effect == EffectDigest(id, op.payload)
  }

  ghost predicate StateInv(j: Journal, a: Authority, id: Id)
    requires id in j.operations
  {
    var op := j.operations[id];
    match op.state
    case INTENT_RECORDED => op.ticket.None? && op.effectWitness.None? && id !in j.queue
    case MAY_HAVE_BEEN_DISPATCHED =>
      id in j.queue && op.effectWitness.None? && op.ticket == Some(j.queue[id]) && TicketInv(a, id, op)
    case UNKNOWN => id in j.queue ==> op.effectWitness.Some?
    case SETTLED => op.receipt.Some?
    case RECONCILED => op.effectWitness.Some? && op.strategy == Some(RECEIPT_LOOKUP)
  }

  ghost predicate OperationInv(j: Journal, a: Authority, id: Id)
    requires id in j.operations
  {
    var op := j.operations[id];
    && op.holder == op.context.holder && op.epoch == op.context.epoch && InRange(op.boundary.generation)
    && (id in j.effects <==> op.effectWitness.Some?)
    && (op.effectWitness.Some? ==>
          && WitnessInv(id, op, op.effectWitness.value)
          && j.effects[id] == EffectRow(op.payload, op.effectWitness.value, op.effectWitness.value.effect))
    && (id in j.receipts ==> op.effectWitness.Some? && j.receipts[id] == Receipt(id, op.payload, op.effectWitness.value))
    && (op.receipt.Some? ==> id in j.receipts && j.receipts[id] == op.receipt.value)
    && StateInv(j, a, id)
  }

  /** Foreign keys, plus every row's own invariant. */
  ghost predicate JournalInv(j: Journal, a: Authority) {
    && j.queue.Keys <= j.operations.Keys
    && j.effects.Keys <= j.operations.Keys
    && j.receipts.Keys <= j.operations.Keys
    && forall id :: id in j.operations ==> OperationInv(j, a, id)
  }

  // ----- runtime journal -----

  /** The settled operations of one session. */
  function SettledOf(operations: map<Id, RuntimeOperation>, session: Id): map<Id, RuntimeOperation> {
    map id | id in operations && operations[id].session == session && operations[id].status.SETTLED? :: operations[id]
  }

  function EndTurns(settled: map<Id, RuntimeOperation>): set<Id> {
    set id | id in settled && settled[id].action.kind.END_TURN?
  }

  function PreGenerations(settled: map<Id, RuntimeOperation>): set<int> {
    set id | id in settled :: settled[id].preGeneration
  }

  /** The generations from `low` up to but not including `high`. */
  function Interval(low: int, high: int): (gs: set<int>)
    decreases high - low
  {
    if high <= low then {} else Interval(low, high - 1) + {high - 1}
  }

  /**
   The settled operations of a session consumed exactly its last `|settled|`
   generations, so each of those generations was consumed once.
   */
  ghost predicate Chain(settled: map<Id, RuntimeOperation>, generation: int, turnIndex: int) {
    && 0 <= generation - |settled|
    && PreGenerations(settled) == Interval(generation - |settled|, generation)
    && turnIndex == 1 + |EndTurns(settled)|
  }

  /** Generation a session was created with: its current one less the actions it has settled. */
  function BirthGeneration(r: Runtime, session: Id): int
    requires session in r.sessions
  {
    r.sessions[session].generation - |SettledOf(r.operations, session)|
  }

  ghost predicate SessionRowInv(id: Id, s: Session) {
    && s.session == id && InRange(s.epoch) && InRange(s.generation)
    && s.observation.stateId == s.stateId && s.observation.generation == s.generation
  }

  ghost predicate SessionInv(operations: map<Id, RuntimeOperation>, id: Id, s: Session) {
    SessionRowInv(id, s) && Chain(SettledOf(operations, id), s.generation, s.observation.turnIndex)
  }

  /** A row is proved exactly when it is settled, and reads back without complaint. */
  ghost predicate RuntimeRowInv(id: Id, op: RuntimeOperation) {
    && op.operationId == id
    && !op.status.RECONCILED? && !op.status.REJECTED?
    && (op.proof.Some? <==> op.status.SETTLED?) && (op.result.Some? <==> op.status.SETTLED?)
    && CheckRuntimeOperation(op).None?
  }

  /** A row belongs to its session; in flight it is queued and still matches the session's state; settled it is not queued. */
  ghost predicate PlacedIn(sessions: map<Id, Session>, queue: set<Id>, op: RuntimeOperation) {
    && op.session in sessions
    && var s := sessions[op.session];
    && BelongsTo(op, s) && op.action in s.legalActions
    && (op.operationId in queue ==> Unresolved(op))
    && (InFlight(op) ==>
          && op.operationId in queue && !s.stopped
          && op.preStateId == s.stateId && op.preGeneration == s.generation)
  }

  ghost predicate RowsInv(operations: map<Id, RuntimeOperation>) {
    forall id :: id in operations ==> RuntimeRowInv(id, operations[id])
  }

  ghost predicate PlacesInv(r: Runtime) {
    forall id :: id in r.operations ==> PlacedIn(r.sessions, r.queue, r.operations[id])
  }

  ghost predicate ChainsInv(r: Runtime) {
    forall id :: id in r.sessions ==> SessionInv(r.operations, id, r.sessions[id])
  }

  ghost predicate OneUnresolved(operations: map<Id, RuntimeOperation>) {
    forall i, j | i in operations && j in operations && Unresolved(operations[i]) && Unresolved(operations[j])
      :: operations[i].instance == operations[j].instance ==> i == j
  }

  ghost predicate OneActiveSession(sessions: map<Id, Session>) {
    forall s, t | s in sessions && t in sessions && !sessions[s].stopped && !sessions[t].stopped
      :: sessions[s].instance == sessions[t].instance ==> s == t
  }

  ghost predicate RuntimeInv(r: Runtime) {
    && r.queue <= r.operations.Keys && |r.operations| <= MAX_RUNTIME_OPERATIONS
    && RowsInv(r.operations) && PlacesInv(r) && ChainsInv(r)
    && OneUnresolved(r.operations) && OneActiveSession(r.sessions)
  }

  ghost predicate Inv(db: Database) {
    AuthorityInv(db.authority) && JournalInv(db.journal, db.authority) && RuntimeInv(db.runtime)
  }

  // ----- when a commit is made -----

  ghost predicate MayRecordIntent(db: Database, id: Id, row: OperationRow) {
    && id !in db.journal.operations && LeaseLive(db.authority) && db.authority.fence.Some?
    && var g := db.authority.lease.value.grant;
    && row.state.INTENT_RECORDED? && row.ticket.None? && row.effectWitness.None? && row.receipt.None?
    && row.holder == row.context.holder == g.holder && row.epoch == row.context.epoch == g.epoch
    && row.context.leaseId == g.leaseId
    && row.fenceId == g.fenceId && InRange(row.boundary.generation)
  }

  /** The ticket and its deadline come from the live lease of the moment. */
  ghost predicate MayAdmit(db: Database, id: Id, t: Ticket, expiresTick: int) {
    && id in db.journal.operations && db.journal.operations[id].state.INTENT_RECORDED?
    && LeaseLive(db.authority) && |db.journal.receipts| < MAX_RECEIPTS
    && var g := db.authority.lease.value.grant;
    && t.operationId == id && t.payload == db.journal.operations[id].payload && t.state.ISSUED?
    && t.epoch == g.epoch && t.boot == g.holder.boot && t.incarnation == g.holder.incarnation
    && t.fenceId == g.fenceId && t.expiresAt == g.expiresAt
    && InPositiveRange(t.epoch) && ValidTimestamp(g.expiresAt)
    && expiresTick == g.expiresTick
  }

  /** An effect: queued, within its deadline, under the live lease its context names. */
  ghost predicate MayRecordEffect(db: Database, id: Id, w: Witness) {
    && id in db.journal.operations && id in db.journal.queue && id !in db.journal.effects
    && LeaseLive(db.authority)
    && var op, t, g := db.journal.operations[id], db.journal.queue[id], db.authority.lease.value.grant;
    && op.state.MAY_HAVE_BEEN_DISPATCHED? && db.authority.clock < op.ticketExpiresTick
    && db.authority.clock < g.expiresTick
    && t.operationId == id && t.payload == op.payload
    && t.epoch == op.context.epoch == g.epoch
    && t.boot == op.context.holder.boot == g.holder.boot
    && t.incarnation == op.context.holder.incarnation == g.holder.incarnation
    && t.fenceId == g.fenceId
    && w == EffectWitnessFor(id, op, t, w.witnessId)
  }

  ghost predicate MaySaveSession(r: Runtime, row: Session) {
    || (&& row.session !in r.sessions && !row.stopped
        && UnresolvedOfInstance(r, row.instance) == {} && ActiveSessions(r, row.instance) == {}
        && InRange(row.epoch) && InRange(row.generation)
        && row.observation == Observation(row.stateId, row.generation, 1))
    || (&& row.session in r.sessions && row == r.sessions[row.session].(stopped := true)
        && (forall id :: id in r.operations && r.operations[id].session == row.session ==> !InFlight(r.operations[id])))
  }

  ghost predicate MayAdmitRuntime(db: Database, op: RuntimeOperation) {
    var r := db.runtime;
    && op.operationId !in r.operations && op.session in r.sessions && !r.sessions[op.session].stopped
    && op == AdmittedOperation(r.sessions[op.session], op.operationId, op.action)
    && op.action in r.sessions[op.session].legalActions
    && AuthorityCurrent(db.authority, op.instance, op.leaseId, op.epoch)
    && UnresolvedOfInstance(r, op.instance) == {}
    && |r.operations| < MAX_RUNTIME_OPERATIONS
  }

  ghost predicate MaySettleRuntime(db: Database, id: Id, proof: RuntimeWitness, result: RuntimeResult, next: Session) {
    && id in db.runtime.operations
    && var op := db.runtime.operations[id];
    && op.status.EXECUTING? && op.session in db.runtime.sessions
    && AuthorityCurrent(db.authority, op.instance, op.leaseId, op.epoch)
    && var s := db.runtime.sessions[op.session];
    && op.preStateId == s.stateId && op.preGeneration == s.generation
    && InRange(s.generation + 1)
    && proof == ProofOf(s, op, proof.witnessId) && result == ResultOf(s, op.action)
    && next == SessionAfter(s, s, op)
  }

  ghost predicate Enabled(db: Database, step: Step) {
    var a, j, r := db.authority, db.journal, db.runtime;
    match step
    case Reopen => true
    case Bootstrap(_, _, ttl, renewal) =>
      ValidPolicy(ttl, renewal) && InPositiveRange(NextGeneration(a)) && InRange(EpochCounter(a))
    case ReadyFence => a.fence.Some? && !a.fence.value.state.RESTART_REQUIRED?
    case AcquireLease(boot, fence, leaseId) =>
      && a.fence.Some? && a.fence.value.state.READY? && leaseId !in a.history
      && boot.holder == a.fence.value.holder && fence.fenceId == a.fence.value.fenceId
      && boot.authorityGeneration == a.fence.value.authorityGeneration
      && EpochCounter(a) < MAX_INTEGER
    case RenewLease(leaseId, sequence) =>
      && LeaseLive(a) && a.lease.value.grant.leaseId == leaseId
      && sequence == a.lease.value.grant.renewSequence + 1
      && ValidTimestamp(a.lease.value.grant.expiresAt)
    case RevokeLease(leaseId, epoch) =>
      LeaseLive(a) && a.lease.value.grant.leaseId == leaseId && a.lease.value.grant.epoch == epoch
    case RecordIntent(id, row) => MayRecordIntent(db, id, row)
    case AdmitOperation(id, t, expires) => MayAdmit(db, id, t, expires)
    case Dequeue(id) => id in j.queue && id in j.operations && !j.operations[id].state.MAY_HAVE_BEEN_DISPATCHED?
    case MarkTicketUnknown(id) => id in j.operations && j.operations[id].state.UNKNOWN?
    case QuarantineOperation(id) => id in j.operations && j.operations[id].state.MAY_HAVE_BEEN_DISPATCHED?
    case RecordEffect(id, w) => MayRecordEffect(db, id, w)
    case RecordReceipt(id, receipt) =>
      && id in j.operations && id in j.effects && id !in j.receipts && j.operations[id].state.UNKNOWN?
      && j.operations[id].effectWitness.Some?
      && receipt == Receipt(id, j.operations[id].payload, j.operations[id].effectWitness.value)
    case SettleOperation(id, receipt) =>
      id in j.operations && j.operations[id].state.UNKNOWN? && id in j.receipts && j.receipts[id] == receipt
    case ReconcileOperation(id, strategy) =>
      && id in j.operations && j.operations[id].state.UNKNOWN? && id in j.effects
      && strategy.RECEIPT_LOOKUP? && a.fence.Some? && a.fence.value.state.READY?
    case SaveSession(row) => MaySaveSession(r, row)
    case AdmitRuntime(op) => MayAdmitRuntime(db, op)
    case BeginRuntime(id) =>
      && id in r.operations && r.operations[id].status.ADMITTED?
      && AuthorityCurrent(a, r.operations[id].instance, r.operations[id].leaseId, r.operations[id].epoch)
    case SettleRuntime(id, proof, result, next) => MaySettleRuntime(db, id, proof, result, next)
    case MarkRuntimeUnknown(id) => id in r.operations && InFlight(r.operations[id])
    case MarkSessionUnknown(_) => true
    case DequeueSessionUnknown(_) => true
    case RejectRuntime(_) => false
    case ReconcileRuntime(_) => false
    case DequeueRuntime(_) => false
  }
}
