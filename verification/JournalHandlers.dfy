/**
 Specification of the sideband journal handlers: intent, dispatch, host tick
 and reconcile, with the crash points a test server can arm.
 */
module JournalHandlers {
  import opened Wrappers
  import opened Identity
  import opened FixtureClock
  import opened HostRecords
  import opened HostCommits
  import opened HostReplies
  import opened LeaseHandlers

  predicate ContextMatches(context: OriginalContext, lease: LeaseDocument) {
    && context.holder == lease.holder && context.authorityGeneration == lease.authorityGeneration
    && context.leaseId == lease.leaseId && context.epoch == lease.epoch
  }

  function IntentRow(operation: Operation, lease: LeaseDocument, fenceId: Id): OperationRow {
    OperationRow(operation.payload, lease.holder, lease.epoch, fenceId, JournalState.INTENT_RECORDED,
                 None, operation.action, operation.boundary, operation.context, None, 0, None, None, None)
  }

  function IntentOutcome(db: Database, lease: LeaseDocument, operation: Operation): Outcome {
    var refusal := CheckLease(db.authority, lease);
    var id := operation.id;
    if refusal.Some? then Fail(refusal.value)
    else if !ValidContext(operation.context) || !InRange(operation.boundary.generation) then Fail(Invalid)
    else if !ContextMatches(operation.context, lease) then Fail(Stale(LeaseSubject))
    else if |operation.action| > MAX_ACTION_BYTES then Fail(Bounds)
    else if id in db.journal.operations then
      var row := db.journal.operations[id];
      if row.payload != operation.payload || row.context != operation.context
         || row.action != operation.action || row.boundary != operation.boundary
      then Say([], Answer(CONFLICT))
      else Say([], Answer(if row.state.SETTLED? then DUPLICATE else Status.INTENT_RECORDED))
    else if db.authority.fence.None? then Fail(HostNotReady)
    else Say([RecordIntent(id, IntentRow(operation, lease, db.authority.fence.value.fenceId))],
             Answer(Status.INTENT_RECORDED))
  }

  /** `validate_operation_ref_context`: a reference must name the recorded digest and context. */
  predicate RefContradicts(j: Journal, operation: OperationRef) {
    operation.id in j.operations
    && (j.operations[operation.id].payload != operation.payload
        || j.operations[operation.id].context != operation.context)
  }

  function IssuedTicket(grant: Grant, lease: LeaseDocument, fenceId: Id, operation: OperationRef, ticketId: Id): Ticket {
    Ticket(ticketId, operation.id, operation.payload, lease.holder.boot, lease.holder.incarnation,
           lease.epoch, fenceId, ISSUED, grant.expiresAt)
  }

  function DispatchOutcome(db: Database, lease: LeaseDocument, operation: OperationRef,
                           ticketId: Id, armed: FaultPoint): Outcome
  {
    var refusal := CheckLease(db.authority, lease);
    var id, j := operation.id, db.journal;
    if refusal.Some? then Fail(refusal.value)
    else if !ValidContext(operation.context) then Fail(Invalid)
    else if RefContradicts(j, operation) then Fail(Conflict)
    else if id !in j.operations then Say([], Answer(NOT_FOUND))
    else
      match j.operations[id].state
      case SETTLED => Say([], Answer(DUPLICATE))
      case RECONCILED => Say([], Answer(DUPLICATE))
      case UNKNOWN => Say([], Answer(Status.UNKNOWN))
      case MAY_HAVE_BEEN_DISPATCHED => Say([], Answer(Status.MAY_HAVE_BEEN_DISPATCHED))
      case INTENT_RECORDED =>
        if |j.receipts| >= MAX_RECEIPTS then Say([], Answer(BOUNDS_EXCEEDED))
        else if armed.BeforeAdmission? then Outcome([], Ok(Answer(Status.UNKNOWN)), Crash)
        else if db.authority.fence.None? then Fail(HostNotReady)
        else if db.authority.lease.None? then Fail(SqlError)
        else if id in j.queue then Fail(SqlError)
        else
          var grant := db.authority.lease.value.grant;
          var ticket := IssuedTicket(grant, lease, db.authority.fence.value.fenceId, operation, ticketId);
          Outcome([AdmitOperation(id, ticket, grant.expiresTick)],
                  Ok(Answer(Status.MAY_HAVE_BEEN_DISPATCHED)), if armed.AfterAdmission? then Crash else Send)
  }

  /** `validate_ticket`: shape, identity, then agreement with the operation's original context. */
  function CheckTicket(ticket: Ticket, id: Id, payload: Digest, context: OriginalContext): Option<FixtureError> {
    if !InPositiveRange(ticket.epoch) || !ValidTimestamp(ticket.expiresAt) then Some(Invalid)
    else if ticket.operationId != id || ticket.payload != payload then Some(Conflict)
    else if ticket.incarnation != context.holder.incarnation || ticket.boot != context.holder.boot
            || ticket.epoch != context.epoch
    then Some(Stale(LeaseSubject))
    else None
  }

  /** `validate_ticket_authority`: the ticket's authority is still the live lease. */
  function CheckTicketAuthority(a: Authority, ticket: Ticket): Option<FixtureError> {
    if a.lease.None? then Some(HostNotReady)
    else
      var grant := a.lease.value.grant;
      if grant.revoked || a.clock >= grant.expiresTick then Some(Stale(RevokedLeaseSubject))
      else if ticket.boot != grant.holder.boot || ticket.incarnation != grant.holder.incarnation
              || ticket.epoch != grant.epoch || ticket.fenceId != grant.fenceId
      then Some(Stale(LeaseSubject))
      else if a.fence.None? then Some(HostNotReady)
      else if a.fence.value.fenceId != grant.fenceId then Some(Stale(FenceSubject))
      else None
  }

  function EffectWitnessFor(id: Id, op: OperationRow, ticket: Ticket, witnessId: Id): Witness {
    Witness(witnessId, id, op.payload, ticket.boot, ticket.incarnation, ticket.fenceId,
            HOST_GAME_THREAD, op.boundary.stateId, op.boundary.generation, EffectDigest(id, op.payload))
  }

  /** The four commits of a successful tick: effect, receipt, settlement, queue removal. */
  function TickCommits(id: Id, effectWitness: Witness, payload: Digest): seq<Step> {
    var receipt := Receipt(id, payload, effectWitness);
    [RecordEffect(id, effectWitness), RecordReceipt(id, receipt), SettleOperation(id, receipt), Dequeue(id)]
  }

  function ExecuteOutcome(j: Journal, id: Id, op: OperationRow, ticket: Ticket,
                          witnessId: Id, armed: FaultPoint): Outcome
  {
    var effectWitness := EffectWitnessFor(id, op, ticket, witnessId);
    var commits := TickCommits(id, effectWitness, op.payload);
    if armed.BeforeMutation? then Outcome([], Ok(Answer(Status.MAY_HAVE_BEEN_DISPATCHED)), Crash)
    else if !InRange(op.boundary.generation) then Fail(Invalid)
    else if id in j.effects then Fail(SqlError)
    else if armed.AfterMutation? || armed.BeforeReceipt? then
      Outcome(commits[..1], Ok(Answer(Status.UNKNOWN)), Crash)
    else if id in j.receipts then Outcome(commits[..1], Err(SqlError), Send)
    else Outcome(commits, Ok(Answer(Status.SETTLED)), if armed.AfterReceipt? then Crash else Send)
  }

  function TickOutcome(db: Database, id: Id, witnessId: Id, armed: FaultPoint): Outcome {
    var j := db.journal;
    if id !in j.queue || id !in j.operations then Say([], Answer(NOT_FOUND))
    else
      var op, ticket := j.operations[id], j.queue[id];
      if op.state.SETTLED? || op.state.RECONCILED? then Say([Dequeue(id)], Answer(DUPLICATE))
      else if op.effectWitness.Some? || op.state.UNKNOWN? then
        Say([Dequeue(id), MarkTicketUnknown(id)], Answer(Status.UNKNOWN))
      else if !op.state.MAY_HAVE_BEEN_DISPATCHED? then Say([], Answer(Status.REJECTED))
      else if db.authority.clock >= op.ticketExpiresTick then
        Say([QuarantineOperation(id)], Answer(LEASE_EXPIRED))
      else
        var mismatch := CheckTicket(ticket, id, op.payload, op.context);
        var refusal := CheckTicketAuthority(db.authority, ticket);
        if mismatch.Some? then Fail(mismatch.value)
        else if refusal.Some? then Say([QuarantineOperation(id)], Answer(ErrorStatus(refusal.value)))
        else ExecuteOutcome(j, id, op, ticket, witnessId, armed)
  }

  /** `validate_operation_witness_consistency`: the row's witness is the durable effect. */
  function CheckWitness(j: Journal, id: Id, payload: Digest, effectWitness: Witness): Option<FixtureError> {
    if effectWitness.operationId != id || effectWitness.payload != payload then Some(Conflict)
    else if !InRange(effectWitness.generation) then Some(Invalid)
    else if id !in j.effects || j.effects[id] != EffectRow(payload, effectWitness, effectWitness.effect)
    then Some(Conflict)
    else if id in j.receipts && j.receipts[id] != Receipt(id, payload, effectWitness) then Some(Conflict)
    else None
  }

  predicate StrategyMatches(strategy: Strategy, source: WitnessSource) {
    (strategy.RECEIPT_LOOKUP? && source.HOST_GAME_THREAD?)
    || (strategy.REOBSERVE? && source.AUTHORITATIVE_REOBSERVE?)
  }

  function ReconcileOutcome(db: Database, operation: OperationRef, strategy: Strategy, fence: FenceDocument): Outcome {
    var refusal := CheckFence(db.authority, fence);
    var id, j := operation.id, db.journal;
    if refusal.Some? then Fail(refusal.value)
    else if !ValidContext(operation.context) then Fail(Invalid)
    else if RefContradicts(j, operation) then Fail(Conflict)
    else if id !in j.operations then Say([], Answer(NOT_FOUND))
    else
      var op := j.operations[id];
      if op.effectWitness.None? then Say([], Answer(Status.UNKNOWN))
      else
        var effectWitness := op.effectWitness.value;
        var doubt := CheckWitness(j, id, operation.payload, effectWitness);
        if doubt.Some? then Fail(doubt.value)
        else if op.state.SETTLED? || op.state.RECONCILED? then Say([], Answer(DUPLICATE))
        else if strategy.QUARANTINE? || !StrategyMatches(strategy, effectWitness.source) then
          Say([], Answer(Status.UNKNOWN))
        else Say([ReconcileOperation(id, strategy)], Answer(Status.RECONCILED))
  }
}
