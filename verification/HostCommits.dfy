/**
 The atomic commits of the durable host.  One `Step` is one SQLite transaction
 or one stand-alone statement; `Apply` is its effect on the tables.  A crash can
 only fall between two steps, and `Reopen` is the recovery transaction of
 `DurableHost::open`.
 */
module HostCommits {
  import opened Wrappers
  import opened Identity
  import opened FixtureClock
  import opened HostRecords

  datatype Step =
    | Reopen
    | Bootstrap(holder: Holder, fenceId: Id, ttl: int, renewal: int)
    | ReadyFence
    | AcquireLease(boot: BootDocument, fence: FenceDocument, leaseId: Id)
    | RenewLease(leaseId: Id, sequence: int)
    | RevokeLease(leaseId: Id, epoch: int)
    | RecordIntent(id: Id, intent: OperationRow)
    | AdmitOperation(id: Id, ticket: Ticket, expiresTick: int)
    | Dequeue(id: Id)
    | MarkTicketUnknown(id: Id)
    | QuarantineOperation(id: Id)
    | RecordEffect(id: Id, effectWitness: Witness)
    | RecordReceipt(id: Id, receipt: Receipt)
    | SettleOperation(id: Id, receipt: Receipt)
    | ReconcileOperation(id: Id, strategy: Strategy)
    | SaveSession(row: Session)
    | AdmitRuntime(operation: RuntimeOperation)
    | BeginRuntime(id: Id)
    | SettleRuntime(id: Id, proof: RuntimeWitness, result: RuntimeResult, next: Session)
    | MarkRuntimeUnknown(id: Id)
    | MarkSessionUnknown(session: Id)
    | DequeueSessionUnknown(session: Id)
    | RejectRuntime(id: Id)
    | ReconcileRuntime(id: Id)
    | DequeueRuntime(id: Id)

  // ----- fencing and leases -----

  predicate IsMaximum(m: int, numbers: set<int>) {
    m in numbers && forall n :: n in numbers ==> n <= m
  }

  lemma {:induction false} MaximumExists(numbers: set<int>)
    requires numbers != {}
    ensures exists m :: IsMaximum(m, numbers)
    decreases |numbers|
  {
    if forall n :: n !in numbers { assert false; }
    var x: int :| x in numbers;
    var rest := numbers - {x};
    if rest == {} {
      forall n | n in numbers ensures n == x { assert n == x || n in rest; }
      assert IsMaximum(x, numbers);
    } else {
      MaximumExists(rest);
      var y :| IsMaximum(y, rest);
      forall n | n in numbers ensures n <= Larger(x, y) { assert n == x || n in rest; }
      assert IsMaximum(Larger(x, y), numbers);
    }
  }

  function Epochs(history: map<Id, HistoryRow>): set<int> {
    set id | id in history :: history[id].grant.epoch
  }

  /** `COALESCE(MAX(lease_epoch),0)` over the lease history. */
  function MaxEpoch(history: map<Id, HistoryRow>): (m: int)
    ensures forall id :: id in history ==> history[id].grant.epoch <= m
    ensures history == map[] ==> m == 0
    ensures history != map[] ==> m in Epochs(history)
  {
    var epochs := Epochs(history);
    assert forall id :: id in history ==> history[id].grant.epoch in epochs;
    if history == map[] then 0
    else
      assert epochs != {} by {
        var id :| id in history;
        assert history[id].grant.epoch in epochs;
      }
      MaximumExists(epochs);
      var m :| m in epochs && IsMaximum(m, epochs);
      m
  }

  function Larger(a: int, b: int): int { if a > b then a else b }

  function RevokeRow(history: map<Id, HistoryRow>, leaseId: Id): map<Id, HistoryRow> {
    if leaseId in history then
      history[leaseId := history[leaseId].(grant := history[leaseId].grant.(revoked := true))]
    else history
  }

  /** `INSERT OR IGNORE` of the current lease into the history: keyed by lease id, epochs unique. */
  function ArchiveLease(a: Authority): Authority {
    if a.lease.None? then a
    else
      var grant := a.lease.value.grant;
      if grant.leaseId in a.history || grant.epoch in Epochs(a.history) then a
      else a.(history := a.history[grant.leaseId := HistoryRow(grant, TokenDigest(FIXTURE_TOKEN))])
  }

  function RevokeCurrent(a: Authority): Authority {
    if a.lease.None? then a
    else
      var lease := a.lease.value;
      a.(lease := Some(lease.(grant := lease.grant.(revoked := true))),
         history := RevokeRow(a.history, lease.grant.leaseId))
  }

  function ReopenAuthority(a: Authority): Authority {
    var archived := ArchiveLease(a);
    var revoked := RevokeCurrent(archived);
    if a.fence.None? then revoked
    else revoked.(fence := Some(a.fence.value.(
      epochCounter := Larger(a.fence.value.epochCounter, MaxEpoch(archived.history)),
      state := RESTART_REQUIRED)))
  }

  function NextGeneration(a: Authority): int {
    if a.fence.None? then 1 else a.fence.value.authorityGeneration + 1
  }

  function EpochCounter(a: Authority): int {
    Larger(if a.fence.None? then 0 else a.fence.value.epochCounter, MaxEpoch(a.history))
  }

  function BootstrapAuthority(a: Authority, holder: Holder, fenceId: Id, ttl: int, renewal: int): Authority {
    RevokeCurrent(a).(fence := Some(FenceRow(
      holder, NextGeneration(a), fenceId, NextGeneration(a), FENCE_REQUIRED, EpochCounter(a), ttl, renewal)))
  }

  function ReadyAuthority(a: Authority): Authority {
    if a.fence.None? then a else a.(fence := Some(a.fence.value.(state := READY)))
  }

  function FreshGrant(a: Authority, boot: BootDocument, fence: FenceDocument, leaseId: Id): Grant
    requires a.fence.Some?
  {
    var ttl := a.fence.value.ttl;
    var expires := SaturatingAdd(a.clock, ttl);
    Grant(leaseId, EpochCounter(a) + 1, boot.holder, fence.fenceId,
          TimestampForTick(a.clock), TimestampForTick(expires), a.clock, expires,
          ttl, a.fence.value.renewal, 0, false)
  }

  function AcquireAuthority(a: Authority, boot: BootDocument, fence: FenceDocument, leaseId: Id): Authority {
    if a.fence.None? then a
    else
      var grant := FreshGrant(a, boot, fence, leaseId);
      var revoked := RevokeCurrent(ArchiveLease(a));
      revoked.(
        fence := Some(a.fence.value.(epochCounter := grant.epoch)),
        history := revoked.history[leaseId := HistoryRow(grant, TokenDigest(FIXTURE_TOKEN))],
        lease := Some(LeaseRow(grant, FIXTURE_TOKEN)))
  }

  /** The clock a renewal moves to. */
  function RenewedClock(a: Authority): int
    requires a.lease.Some?
  {
    var grant := a.lease.value.grant;
    Larger(SaturatingAdd(a.clock, grant.renewal), SaturatingSub(grant.expiresTick, grant.ttl))
  }

  function RenewGrant(grant: Grant, expires: int, sequence: int): Grant {
    grant.(expiresAt := TimestampForTick(expires), expiresTick := expires, renewSequence := sequence)
  }

  function RenewAuthority(a: Authority, leaseId: Id, sequence: int): Authority {
    if a.lease.None? then a
    else
      var lease := a.lease.value;
      var clock := RenewedClock(a);
      var expires := SaturatingAdd(clock, lease.grant.ttl);
      a.(clock := clock,
         lease := Some(if lease.grant.leaseId == leaseId
                       then lease.(grant := RenewGrant(lease.grant, expires, sequence)) else lease),
         history := if leaseId in a.history
                    then a.history[leaseId := a.history[leaseId].(
                           grant := RenewGrant(a.history[leaseId].grant, expires, sequence))]
                    else a.history)
  }

  function RevokeAuthority(a: Authority, leaseId: Id, epoch: int): Authority {
    a.(lease := if a.lease.Some? && a.lease.value.grant.leaseId == leaseId && a.lease.value.grant.epoch == epoch
                then Some(a.lease.value.(grant := a.lease.value.grant.(revoked := true))) else a.lease,
       history := if leaseId in a.history && a.history[leaseId].grant.epoch == epoch
                  then RevokeRow(a.history, leaseId) else a.history)
  }

  // ----- sideband operation journal -----

  /** `json_set(ticket_json,'$.state',...)`: a missing ticket stays missing. */
  function TicketWith(ticket: Option<Ticket>, state: TicketState): Option<Ticket> {
    if ticket.None? then None else Some(ticket.value.(state := state))
  }

  function QuarantinedRow(op: OperationRow): OperationRow {
    op.(state := JournalState.UNKNOWN, uncertainty := Some(AUTHORITY_ROTATED),
        ticket := TicketWith(op.ticket, TICKET_UNKNOWN))
  }

  /** Every dispatched operation becomes uncertain and no uncertain operation stays queued. */
  function RotateJournal(j: Journal): Journal {
    var operations := map id | id in j.operations ::
      if j.operations[id].state.MAY_HAVE_BEEN_DISPATCHED? then QuarantinedRow(j.operations[id]) else j.operations[id];
    j.(operations := operations,
       queue := map id | id in j.queue && !(id in operations && operations[id].state.UNKNOWN?) :: j.queue[id])
  }

  function WithOperation(j: Journal, id: Id, op: OperationRow): Journal {
    j.(operations := j.operations[id := op])
  }

  function AdmitJournal(j: Journal, id: Id, ticket: Ticket, expiresTick: int): Journal {
    if id !in j.operations then j
    else WithOperation(j, id, j.operations[id].(
           state := JournalState.MAY_HAVE_BEEN_DISPATCHED, ticket := Some(ticket), ticketExpiresTick := expiresTick))
         .(queue := j.queue[id := ticket])
  }

  function QuarantineJournal(j: Journal, id: Id): Journal {
    if id !in j.operations then j
    else WithOperation(j, id, QuarantinedRow(j.operations[id])).(queue := j.queue - {id})
  }

  function EffectJournal(j: Journal, id: Id, effectWitness: Witness): Journal {
    if id !in j.operations then j
    else WithOperation(j, id, j.operations[id].(
           state := JournalState.UNKNOWN, uncertainty := Some(RECEIPT_MISSING), effectWitness := Some(effectWitness),
           ticket := TicketWith(j.operations[id].ticket, EFFECT_WITNESS_RECORDED)))
         .(effects := j.effects[id := EffectRow(j.operations[id].payload, effectWitness, effectWitness.effect)])
  }

  function SettleJournal(j: Journal, id: Id, receipt: Receipt): Journal {
    if id !in j.operations then j
    else WithOperation(j, id, j.operations[id].(
           state := JournalState.SETTLED, uncertainty := None, receipt := Some(receipt),
           ticket := TicketWith(j.operations[id].ticket, TICKET_SETTLED)))
  }

  function ReconcileJournal(j: Journal, id: Id, strategy: Strategy): Journal {
    if id !in j.operations then j
    else WithOperation(j, id, j.operations[id].(
           state := JournalState.RECONCILED, uncertainty := None, strategy := Some(strategy),
           ticket := TicketWith(j.operations[id].ticket, TICKET_SETTLED)))
  }

  function MarkTicketJournal(j: Journal, id: Id): Journal {
    if id !in j.operations then j
    else WithOperation(j, id, j.operations[id].(ticket := TicketWith(j.operations[id].ticket, TICKET_UNKNOWN)))
  }

  // ----- runtime-v3 journal -----

  predicate InFlight(op: RuntimeOperation) { op.status.ADMITTED? || op.status.EXECUTING? }

  predicate Unresolved(op: RuntimeOperation) { InFlight(op) || op.status.UNKNOWN? }

  function WithStatus(r: Runtime, id: Id, status: RuntimeStatus): Runtime {
    if id !in r.operations then r
    else r.(operations := r.operations[id := r.operations[id].(status := status)])
  }

  /** Authority replacement: everything in flight becomes uncertain, nothing uncertain stays queued. */
  function RotateRuntime(r: Runtime): Runtime {
    var operations := map id | id in r.operations ::
      if InFlight(r.operations[id]) then r.operations[id].(status := RuntimeStatus.UNKNOWN) else r.operations[id];
    r.(operations := operations,
       queue := set id | id in r.queue && !(id in operations && operations[id].status.UNKNOWN?))
  }

  function AdmitRuntimeRows(r: Runtime, op: RuntimeOperation): Runtime {
    r.(operations := r.operations[op.operationId := op], queue := r.queue + {op.operationId})
  }

  function SettleRuntimeRows(r: Runtime, id: Id, proof: RuntimeWitness, result: RuntimeResult, next: Session): Runtime {
    if id !in r.operations then r
    else r.(
      operations := r.operations[id := r.operations[id].(
                      status := RuntimeStatus.SETTLED, proof := Some(proof), result := Some(result))],
      sessions := r.sessions[next.session := next],
      queue := r.queue - {id})
  }

  function MarkSessionRows(r: Runtime, session: Id): Runtime {
    r.(operations := map id | id in r.operations ::
         if r.operations[id].session == session && InFlight(r.operations[id])
         then r.operations[id].(status := RuntimeStatus.UNKNOWN) else r.operations[id])
  }

  function DequeueSessionRows(r: Runtime, session: Id): Runtime {
    r.(queue := set id | id in r.queue
         && !(id in r.operations && r.operations[id].session == session && r.operations[id].status.UNKNOWN?))
  }

  // ----- whole database -----

  function Rotated(db: Database, a: Authority): Database {
    Database(a, RotateJournal(db.journal), RotateRuntime(db.runtime))
  }

  function Apply(db: Database, step: Step): Database {
    match step
    case Reopen => Rotated(db, ReopenAuthority(db.authority))
    case Bootstrap(holder, fenceId, ttl, renewal) =>
      Rotated(db, BootstrapAuthority(db.authority, holder, fenceId, ttl, renewal))
    case ReadyFence => db.(authority := ReadyAuthority(db.authority))
    case AcquireLease(boot, fence, leaseId) =>
      Rotated(db, AcquireAuthority(db.authority, boot, fence, leaseId))
    case RenewLease(leaseId, sequence) => db.(authority := RenewAuthority(db.authority, leaseId, sequence))
    case RevokeLease(leaseId, epoch) => db.(authority := RevokeAuthority(db.authority, leaseId, epoch))
    case RecordIntent(id, intent) => db.(journal := WithOperation(db.journal, id, intent))
    case AdmitOperation(id, ticket, expires) => db.(journal := AdmitJournal(db.journal, id, ticket, expires))
    case Dequeue(id) => db.(journal := db.journal.(queue := db.journal.queue - {id}))
    case MarkTicketUnknown(id) => db.(journal := MarkTicketJournal(db.journal, id))
    case QuarantineOperation(id) => db.(journal := QuarantineJournal(db.journal, id))
    case RecordEffect(id, effectWitness) => db.(journal := EffectJournal(db.journal, id, effectWitness))
    case RecordReceipt(id, receipt) => db.(journal := db.journal.(receipts := db.journal.receipts[id := receipt]))
    case SettleOperation(id, receipt) => db.(journal := SettleJournal(db.journal, id, receipt))
    case ReconcileOperation(id, strategy) => db.(journal := ReconcileJournal(db.journal, id, strategy))
    case SaveSession(row) => db.(runtime := db.runtime.(sessions := db.runtime.sessions[row.session := row]))
    case AdmitRuntime(operation) => db.(runtime := AdmitRuntimeRows(db.runtime, operation))
    case BeginRuntime(id) => db.(runtime := WithStatus(db.runtime, id, EXECUTING))
    case SettleRuntime(id, proof, result, next) =>
      db.(runtime := SettleRuntimeRows(db.runtime, id, proof, result, next))
    case MarkRuntimeUnknown(id) =>
      db.(runtime := WithStatus(db.runtime, id, RuntimeStatus.UNKNOWN).(queue := db.runtime.queue - {id}))
    case MarkSessionUnknown(session) => db.(runtime := MarkSessionRows(db.runtime, session))
    case DequeueSessionUnknown(session) => db.(runtime := DequeueSessionRows(db.runtime, session))
    case RejectRuntime(id) => db.(runtime := WithStatus(db.runtime, id, RuntimeStatus.REJECTED))
    case ReconcileRuntime(id) => db.(runtime := WithStatus(db.runtime, id, RuntimeStatus.RECONCILED))
    case DequeueRuntime(id) => db.(runtime := db.runtime.(queue := db.runtime.queue - {id}))
  }

  function ApplyAll(db: Database, steps: seq<Step>): Database {
    if steps == [] then db else Apply(ApplyAll(db, steps[..|steps| - 1]), steps[|steps| - 1])
  }
}
