/**
 What each sideband request answers and leaves behind in a safe state: every
 answer with its exact condition, every table after the request.
 */
module JournalAnswers {
  import opened Wrappers
  import opened Identity
  import opened HostRecords
  import opened HostCommits
  import opened HostReplies
  import opened LeaseHandlers
  import opened JournalHandlers
  import opened HostInvariants
  import opened HostRuns
  import HandlerConditions
  import HandlerProofs
  import JournalTheorems

  /** Nothing but the journal differs. */
  predicate OnlyJournal(db: Database, next: Database) { next.authority == db.authority && next.runtime == db.runtime }

  /** Only this operation's row differs, and effects and receipts are as before. */
  predicate OnlyRow(db: Database, next: Database, id: Id, row: OperationRow) {
    && OnlyJournal(db, next) && next.journal.operations == db.journal.operations[id := row]
    && next.journal.effects == db.journal.effects && next.journal.receipts == db.journal.receipts
  }

  // ----- intent -----

  /** The operation is well formed and was submitted under the presented lease. */
  predicate Submittable(lease: LeaseDocument, operation: Operation) {
    && operation.context == OriginalContext(lease.holder, lease.authorityGeneration, lease.leaseId, lease.epoch)
    && InRange(operation.boundary.generation) && |operation.action| <= 65_536
  }

  /** The operation is the one on record under its identifier. */
  predicate OnRecord(j: Journal, operation: Operation) {
    && operation.id in j.operations
    && var row := j.operations[operation.id];
    && row.payload == operation.payload && row.context == operation.context
    && row.action == operation.action && row.boundary == operation.boundary
  }

  lemma PresentedContext(a: Authority, lease: LeaseDocument)
    requires AuthorityInv(a) && HandlerConditions.Presents(a, lease)
    ensures CheckLease(a, lease).None? && a.fence.Some?
    ensures InPositiveRange(lease.authorityGeneration) && InPositiveRange(lease.epoch)
    ensures a.lease.Some? && lease.epoch == a.lease.value.grant.epoch && lease.holder == a.lease.value.grant.holder
    ensures a.fence.value.fenceId == a.lease.value.grant.fenceId
  {
    HandlerConditions.AcceptedIff(a, lease);
  }

  /**
   An intent under the presented live lease is answered CONFLICT exactly when its
   identifier stands for another operation, DUPLICATE exactly when it is on record
   and settled, and INTENT_RECORDED otherwise; it is never refused.
   */
  lemma IntentAnswers(db: Database, lease: LeaseDocument, operation: Operation)
    requires AuthorityInv(db.authority) && HandlerConditions.Presents(db.authority, lease) && Submittable(lease, operation)
    ensures var outcome, j := IntentOutcome(db, lease, operation), db.journal;
      && outcome.result.Ok? && outcome.result.value.Answer? && outcome.action.Send?
      && (outcome.result.value.status.CONFLICT? <==> operation.id in j.operations && !OnRecord(j, operation))
      && (outcome.result.value.status.DUPLICATE? <==>
            OnRecord(j, operation) && j.operations[operation.id].state.SETTLED?)
      && (outcome.result.value.status.INTENT_RECORDED? <==>
            || operation.id !in j.operations
            || (OnRecord(j, operation) && !j.operations[operation.id].state.SETTLED?))
  {
    PresentedContext(db.authority, lease);
  }

  /** What an intent leaves: for a new identifier exactly the submitted operation, for a known one everything as it was. */
  lemma IntentLeaves(db: Database, lease: LeaseDocument, operation: Operation)
    requires AuthorityInv(db.authority) && HandlerConditions.Presents(db.authority, lease) && Submittable(lease, operation)
    ensures var next := ApplyAll(db, IntentOutcome(db, lease, operation).steps);
      if operation.id in db.journal.operations then next == db
      else
        && OnRecord(next.journal, operation)
        && var row := next.journal.operations[operation.id];
        && OnlyRow(db, next, operation.id, row) && next.journal.queue == db.journal.queue
        && row.state.INTENT_RECORDED? && row.ticket.None? && row.effectWitness.None? && row.receipt.None?
        && row.holder == lease.holder && row.epoch == lease.epoch && row.fenceId == db.authority.fence.value.fenceId
  {
    PresentedContext(db.authority, lease);
    var steps := IntentOutcome(db, lease, operation).steps;
    if steps != [] { RunsOne(db, steps[0]); }
  }

  /** An intent that is not presented properly is refused and changes nothing. */
  lemma IntentRefusals(db: Database, lease: LeaseDocument, operation: Operation)
    requires AuthorityInv(db.authority)
    requires !HandlerConditions.Presents(db.authority, lease) || !Submittable(lease, operation)
    ensures IntentOutcome(db, lease, operation).steps == [] && IntentOutcome(db, lease, operation).result.Err?
    ensures !HandlerConditions.Presents(db.authority, lease) ==>
      Some(IntentOutcome(db, lease, operation).result.error) == CheckLease(db.authority, lease)
    ensures HandlerConditions.Presents(db.authority, lease) ==>
      var error, context := IntentOutcome(db, lease, operation).result.error, operation.context;
      && (error.Invalid? <==> !ValidContext(context) || !InRange(operation.boundary.generation))
      && (error.Stale? <==>
            && ValidContext(context) && InRange(operation.boundary.generation)
            && context != OriginalContext(lease.holder, lease.authorityGeneration, lease.leaseId, lease.epoch))
      && (error.Bounds? <==>
            && context == OriginalContext(lease.holder, lease.authorityGeneration, lease.leaseId, lease.epoch)
            && InRange(operation.boundary.generation) && |operation.action| > 65_536)
  {
    HandlerConditions.AcceptedIff(db.authority, lease);
    if HandlerConditions.Presents(db.authority, lease) { PresentedContext(db.authority, lease); }
  }

  // ----- dispatch -----

  /** The reference names the digest and context on record. */
  predicate Names(j: Journal, operation: OperationRef) {
    && operation.id in j.operations && j.operations[operation.id].payload == operation.payload
    && j.operations[operation.id].context == operation.context
  }

  /** What the answer to a dispatch tells, by the operation's state. */
  function DispatchStatus(j: Journal, id: Id): Status {
    if id !in j.operations then NOT_FOUND
    else if JournalTheorems.ResolvedState(j.operations[id].state) then DUPLICATE
    else if j.operations[id].state.UNKNOWN? then Status.UNKNOWN
    else if j.operations[id].state.INTENT_RECORDED? && |j.receipts| >= 64 then BOUNDS_EXCEEDED
    else Status.MAY_HAVE_BEEN_DISPATCHED
  }

  lemma AcceptedDispatch(db: Database, lease: LeaseDocument, operation: OperationRef, ticketId: Id)
    requires CheckLease(db.authority, lease).None? && db.authority.fence.Some? && db.authority.lease.Some?
    requires ValidContext(operation.context)
    requires operation.id in db.journal.operations && db.journal.operations[operation.id].state.INTENT_RECORDED? ==>
      operation.id !in db.journal.queue
    ensures var outcome := DispatchOutcome(db, lease, operation, ticketId, NoFault);
      && outcome.action.Send?
      && outcome.result == if operation.id in db.journal.operations && !Names(db.journal, operation) then Err(Conflict)
                           else Ok(Answer(DispatchStatus(db.journal, operation.id)))
  {
  }

  /**
   A dispatch under the presented live lease: a conflict exactly when the
   reference contradicts the record, otherwise the answer tells the operation's
   state, and a recorded intent is admitted exactly while there is room.
   */
  lemma DispatchAnswers(db: Database, lease: LeaseDocument, operation: OperationRef, ticketId: Id)
    requires AuthorityInv(db.authority) && JournalInv(db.journal, db.authority)
    requires HandlerConditions.Presents(db.authority, lease) && ValidContext(operation.context)
    ensures var outcome := DispatchOutcome(db, lease, operation, ticketId, NoFault);
      && outcome.action.Send?
      && outcome.result == if operation.id in db.journal.operations && !Names(db.journal, operation) then Err(Conflict)
                           else Ok(Answer(DispatchStatus(db.journal, operation.id)))
  {
    PresentedContext(db.authority, lease);
    if operation.id in db.journal.operations { assert OperationInv(db.journal, db.authority, operation.id); }
    AcceptedDispatch(db, lease, operation, ticketId);
  }

  /** A dispatch without the live lease's document, or with a context out of range, is refused and changes nothing. */
  lemma DispatchRefusals(db: Database, lease: LeaseDocument, operation: OperationRef, ticketId: Id, armed: FaultPoint)
    requires AuthorityInv(db.authority)
    requires !HandlerConditions.Presents(db.authority, lease) || !ValidContext(operation.context)
    ensures var refusal := CheckLease(db.authority, lease);
      && (refusal.Some? <==> !HandlerConditions.Presents(db.authority, lease))
      && DispatchOutcome(db, lease, operation, ticketId, armed) == Fail(if refusal.Some? then refusal.value else Invalid)
  {
    HandlerConditions.AcceptedIff(db.authority, lease);
  }

  /** The ticket of a dispatch: the operation, under the live lease and its fence, until the lease's deadline. */
  predicate TicketOf(ticket: Ticket, op: OperationRow, id: Id, grant: Grant) {
    && ticket.operationId == id && ticket.payload == op.payload && ticket.state.ISSUED?
    && ticket.boot == grant.holder.boot && ticket.incarnation == grant.holder.incarnation
    && ticket.epoch == grant.epoch && ticket.fenceId == grant.fenceId && ticket.expiresAt == grant.expiresAt
  }

  lemma AdmissionOf(db: Database, lease: LeaseDocument, operation: OperationRef, ticketId: Id) returns (ticket: Ticket)
    requires AuthorityInv(db.authority) && JournalInv(db.journal, db.authority)
    requires DispatchOutcome(db, lease, operation, ticketId, NoFault).steps != []
    ensures LeaseLive(db.authority) && operation.id in db.journal.operations && ticket.ticketId == ticketId
    ensures TicketOf(ticket, db.journal.operations[operation.id], operation.id, db.authority.lease.value.grant)
    ensures DispatchOutcome(db, lease, operation, ticketId, NoFault).steps
         == [AdmitOperation(operation.id, ticket, db.authority.lease.value.grant.expiresTick)]
  {
    HandlerConditions.DispatchesIff(db, lease, operation, ticketId);
    PresentedContext(db.authority, lease);
    ticket := IssuedTicket(db.authority.lease.value.grant, lease, db.authority.fence.value.fenceId, operation, ticketId);
  }

  lemma AdmissionLeaves(db: Database, id: Id, ticket: Ticket, expiresTick: int)
    requires id in db.journal.operations
    ensures var next := ApplyAll(db, [AdmitOperation(id, ticket, expiresTick)]);
      && OnlyRow(db, next, id, db.journal.operations[id].(
           state := JournalState.MAY_HAVE_BEEN_DISPATCHED, ticket := Some(ticket), ticketExpiresTick := expiresTick))
      && next.journal.queue == db.journal.queue[id := ticket]
  {
    RunsOne(db, AdmitOperation(id, ticket, expiresTick));
  }

  /** What a dispatch leaves: an admitted one moves its row and queues its ticket, any other changes nothing. */
  lemma DispatchLeaves(db: Database, lease: LeaseDocument, operation: OperationRef, ticketId: Id)
    requires AuthorityInv(db.authority) && JournalInv(db.journal, db.authority)
    ensures var outcome := DispatchOutcome(db, lease, operation, ticketId, NoFault);
      var next, id := ApplyAll(db, outcome.steps), operation.id;
      if outcome.steps == [] then next == db
      else
        && LeaseLive(db.authority) && id in db.journal.operations && id in next.journal.queue
        && var op, ticket, grant := db.journal.operations[id], next.journal.queue[id], db.authority.lease.value.grant;
        && OnlyRow(db, next, id, op.(state := JournalState.MAY_HAVE_BEEN_DISPATCHED, ticket := Some(ticket),
                                     ticketExpiresTick := grant.expiresTick))
        && next.journal.queue == db.journal.queue[id := ticket]
        && ticket.ticketId == ticketId && TicketOf(ticket, op, id, grant)
  {
    if DispatchOutcome(db, lease, operation, ticketId, NoFault).steps != [] {
      var ticket := AdmissionOf(db, lease, operation, ticketId);
      AdmissionLeaves(db, operation.id, ticket, db.authority.lease.value.grant.expiresTick);
    }
  }

  lemma AcceptedFaults(db: Database, lease: LeaseDocument, operation: OperationRef, ticketId: Id, armed: FaultPoint)
    requires CheckLease(db.authority, lease).None? ==> db.authority.fence.Some? && db.authority.lease.Some?
    requires operation.id in db.journal.operations && db.journal.operations[operation.id].state.INTENT_RECORDED? ==>
      operation.id !in db.journal.queue
    ensures var plain, faulted := DispatchOutcome(db, lease, operation, ticketId, NoFault),
                                  DispatchOutcome(db, lease, operation, ticketId, armed);
      if plain.steps != [] && armed.BeforeAdmission? then faulted.steps == [] && faulted.action.Crash?
      else if plain.steps != [] && armed.AfterAdmission? then faulted == plain.(action := Crash)
      else faulted == plain
  {
  }

  /** Faults around a dispatch: one before the commit prevents it, one after it leaves it, both kill the process; no other fires. */
  lemma DispatchFaults(db: Database, lease: LeaseDocument, operation: OperationRef, ticketId: Id, armed: FaultPoint)
    requires AuthorityInv(db.authority) && JournalInv(db.journal, db.authority)
    ensures var plain, faulted := DispatchOutcome(db, lease, operation, ticketId, NoFault),
                                  DispatchOutcome(db, lease, operation, ticketId, armed);
      if plain.steps != [] && armed.BeforeAdmission? then faulted.steps == [] && faulted.action.Crash?
      else if plain.steps != [] && armed.AfterAdmission? then faulted == plain.(action := Crash)
      else faulted == plain
  {
    HandlerConditions.AcceptedIff(db.authority, lease);
    if operation.id in db.journal.operations { assert OperationInv(db.journal, db.authority, operation.id); }
    AcceptedFaults(db, lease, operation, ticketId, armed);
  }

  // ----- tick -----

  /** The operation gives up: uncertain, off the queue, its effect never recorded. */
  predicate Quarantined(db: Database, next: Database, id: Id) {
    && id in db.journal.operations
    && var op := db.journal.operations[id];
    && OnlyRow(db, next, id, op.(state := JournalState.UNKNOWN, uncertainty := Some(AUTHORITY_ROTATED),
                                 ticket := if op.ticket.None? then None else Some(op.ticket.value.(state := TICKET_UNKNOWN))))
    && next.journal.queue == db.journal.queue - {id} && id !in next.journal.effects
  }

  /** The lease row, live or not, is the one the operation was submitted under. */
  predicate SubmittedUnder(a: Authority, context: OriginalContext) {
    && a.lease.Some?
    && var g := a.lease.value.grant;
    g.epoch == context.epoch && g.holder.boot == context.holder.boot && g.holder.incarnation == context.holder.incarnation
  }

  predicate DispatchedRow(db: Database, id: Id) {
    id in db.journal.operations && db.journal.operations[id].state.MAY_HAVE_BEEN_DISPATCHED?
  }

  lemma QuarantineLeaves(db: Database, id: Id)
    requires id in db.journal.operations && id !in db.journal.effects
    ensures Quarantined(db, ApplyAll(db, [QuarantineOperation(id)]), id)
  {
    RunsOne(db, QuarantineOperation(id));
  }

  lemma ExpiredTick(db: Database, id: Id, witnessId: Id, armed: FaultPoint)
    requires id in db.journal.operations && OperationInv(db.journal, db.authority, id) && DispatchedRow(db, id)
    requires db.authority.clock >= db.journal.operations[id].ticketExpiresTick
    ensures TickOutcome(db, id, witnessId, armed) == Say([QuarantineOperation(id)], Answer(LEASE_EXPIRED))
    ensures id !in db.journal.effects
  {
  }

  /** A tick at or past the deadline quarantines the operation and answers LEASE_EXPIRED, whichever fault is armed. */
  lemma TickExpires(db: Database, id: Id, witnessId: Id, armed: FaultPoint)
    requires JournalInv(db.journal, db.authority) && DispatchedRow(db, id)
    requires db.authority.clock >= db.journal.operations[id].ticketExpiresTick
    ensures var outcome := TickOutcome(db, id, witnessId, armed);
      && outcome.result == Ok(Answer(LEASE_EXPIRED)) && outcome.action.Send?
      && Quarantined(db, ApplyAll(db, outcome.steps), id)
  {
    assert OperationInv(db.journal, db.authority, id);
    ExpiredTick(db, id, witnessId, armed);
    QuarantineLeaves(db, id);
  }

  lemma RevokedTick(db: Database, id: Id, witnessId: Id, armed: FaultPoint)
    requires id in db.journal.operations && OperationInv(db.journal, db.authority, id) && DispatchedRow(db, id)
    requires db.authority.clock < db.journal.operations[id].ticketExpiresTick
    requires !LeaseLive(db.authority) && SubmittedUnder(db.authority, db.journal.operations[id].context)
    ensures TickOutcome(db, id, witnessId, armed) == Say([QuarantineOperation(id)], Answer(LEASE_EXPIRED))
    ensures id !in db.journal.effects
  {
  }

  /** Before the deadline the same happens to an operation of the current lease once that lease is revoked. */
  lemma TickAfterRevocation(db: Database, id: Id, witnessId: Id, armed: FaultPoint)
    requires JournalInv(db.journal, db.authority) && DispatchedRow(db, id)
    requires db.authority.clock < db.journal.operations[id].ticketExpiresTick
    requires !LeaseLive(db.authority) && SubmittedUnder(db.authority, db.journal.operations[id].context)
    ensures var outcome := TickOutcome(db, id, witnessId, armed);
      && outcome.result == Ok(Answer(LEASE_EXPIRED)) && outcome.action.Send?
      && Quarantined(db, ApplyAll(db, outcome.steps), id)
  {
    assert OperationInv(db.journal, db.authority, id);
    RevokedTick(db, id, witnessId, armed);
    QuarantineLeaves(db, id);
  }

  /** Before the deadline an operation submitted under another lease is refused as stale and everything stays as it was. */
  lemma TickOfForeign(db: Database, id: Id, witnessId: Id, armed: FaultPoint)
    requires AuthorityInv(db.authority) && JournalInv(db.journal, db.authority) && DispatchedRow(db, id)
    requires db.authority.clock < db.journal.operations[id].ticketExpiresTick
    requires !SubmittedUnder(db.authority, db.journal.operations[id].context)
    ensures TickOutcome(db, id, witnessId, armed) == Fail(Stale(LeaseSubject))
  {
    assert OperationInv(db.journal, db.authority, id);
  }

  /** The witness of an effect: the operation, the authority of the moment, and the boundary it was submitted for. */
  predicate WitnessOf(w: Witness, id: Id, op: OperationRow, grant: Grant) {
    && w.operationId == id && w.payload == op.payload && w.effect == EffectDigest(id, op.payload)
    && w.boot == grant.holder.boot && w.incarnation == grant.holder.incarnation && w.fenceId == grant.fenceId
    && w.source.HOST_GAME_THREAD? && w.stateId == op.boundary.stateId && w.generation == op.boundary.generation
  }

  /** The operation is settled: effect and receipt on record with the same witness, off the queue, nothing else touched. */
  predicate SettledState(db: Database, next: Database, id: Id, w: Witness) {
    && id in db.journal.operations && OnlyJournal(db, next)
    && var op, receipt := db.journal.operations[id], Receipt(id, db.journal.operations[id].payload, w);
    && next.journal.operations == db.journal.operations[id := op.(
         state := JournalState.SETTLED, uncertainty := None, effectWitness := Some(w), receipt := Some(receipt),
         ticket := if op.ticket.None? then None else Some(op.ticket.value.(state := TICKET_SETTLED)))]
    && next.journal.effects == db.journal.effects[id := EffectRow(op.payload, w, w.effect)]
    && next.journal.receipts == db.journal.receipts[id := receipt]
    && next.journal.queue == db.journal.queue - {id}
  }

  lemma TickCommitsLeave(db: Database, id: Id, w: Witness)
    requires id in db.journal.operations
    ensures SettledState(db, ApplyAll(db, TickCommits(id, w, db.journal.operations[id].payload)), id, w)
  {
    var receipt := Receipt(id, db.journal.operations[id].payload, w);
    AppliesFour(db, RecordEffect(id, w), RecordReceipt(id, receipt), SettleOperation(id, receipt), Dequeue(id));
    var mid := Apply(Apply(db, RecordEffect(id, w)), RecordReceipt(id, receipt));
    AfterReceipt(db, id, w, receipt);
    SettledFrom(db, mid, id, w, receipt);
  }

  /** Effect and receipt are on record, the operation is still uncertain. */
  predicate ReceiptState(db: Database, mid: Database, id: Id, w: Witness, receipt: Receipt) {
    && id in db.journal.operations && OnlyJournal(db, mid) && mid.journal.queue == db.journal.queue
    && var op := db.journal.operations[id];
    && mid.journal.effects == db.journal.effects[id := EffectRow(op.payload, w, w.effect)]
    && mid.journal.receipts == db.journal.receipts[id := receipt]
    && mid.journal.operations == db.journal.operations[id := op.(
         state := JournalState.UNKNOWN, uncertainty := Some(RECEIPT_MISSING), effectWitness := Some(w),
         ticket := TicketWith(op.ticket, EFFECT_WITNESS_RECORDED))]
  }

  lemma AfterReceipt(db: Database, id: Id, w: Witness, receipt: Receipt)
    requires id in db.journal.operations
    ensures ReceiptState(db, Apply(Apply(db, RecordEffect(id, w)), RecordReceipt(id, receipt)), id, w, receipt)
  {
  }

  lemma SettledFrom(db: Database, mid: Database, id: Id, w: Witness, receipt: Receipt)
    requires ReceiptState(db, mid, id, w, receipt) && receipt == Receipt(id, db.journal.operations[id].payload, w)
    ensures SettledState(db, Apply(Apply(mid, SettleOperation(id, receipt)), Dequeue(id)), id, w)
  {
    AfterSettlement(mid, id, receipt);
  }

  lemma AfterSettlement(db: Database, id: Id, receipt: Receipt)
    requires id in db.journal.operations
    ensures var next, op := Apply(Apply(db, SettleOperation(id, receipt)), Dequeue(id)), db.journal.operations[id];
      && OnlyJournal(db, next) && next.journal.queue == db.journal.queue - {id}
      && next.journal.effects == db.journal.effects && next.journal.receipts == db.journal.receipts
      && next.journal.operations == db.journal.operations[id := op.(
           state := JournalState.SETTLED, uncertainty := None, receipt := Some(receipt),
           ticket := TicketWith(op.ticket, TICKET_SETTLED))]
  {
  }

  /** Otherwise, before the deadline and under the live lease it was submitted under, the operation is settled. */
  lemma TickSettles(db: Database, id: Id, witnessId: Id)
    requires AuthorityInv(db.authority) && JournalInv(db.journal, db.authority) && DispatchedRow(db, id)
    requires db.authority.clock < db.journal.operations[id].ticketExpiresTick
    requires LeaseLive(db.authority) && SubmittedUnder(db.authority, db.journal.operations[id].context)
    ensures id in db.journal.queue
    ensures var w := EffectWitnessFor(id, db.journal.operations[id], db.journal.queue[id], witnessId);
      var outcome := TickOutcome(db, id, witnessId, NoFault);
      && outcome.result == Ok(Answer(Status.SETTLED)) && outcome.action.Send?
      && w.witnessId == witnessId && WitnessOf(w, id, db.journal.operations[id], db.authority.lease.value.grant)
      && SettledState(db, ApplyAll(db, outcome.steps), id, w)
  {
    assert OperationInv(db.journal, db.authority, id);
    var w := EffectWitnessFor(id, db.journal.operations[id], db.journal.queue[id], witnessId);
    JournalTheorems.TickExecutesIff(db, id, witnessId);
    TickCommitsLeave(db, id, w);
  }

  /** What a fault makes of an outcome with four commits. */
  predicate FaultedTick(plain: Outcome, faulted: Outcome, armed: FaultPoint) {
    && |plain.steps| == 4 && plain.steps[0].RecordEffect?
    && match armed
       case BeforeMutation => faulted.steps == [] && faulted.action.Crash?
       case AfterMutation => faulted.steps == [plain.steps[0]] && faulted.action.Crash?
       case BeforeReceipt => faulted.steps == [plain.steps[0]] && faulted.action.Crash?
       case AfterReceipt => faulted == plain.(action := Crash)
       case _ => faulted == plain
  }

  lemma ExecuteFaults(j: Journal, id: Id, op: OperationRow, ticket: Ticket, witnessId: Id, armed: FaultPoint)
    requires InRange(op.boundary.generation) && id !in j.effects && id !in j.receipts
    ensures ExecuteOutcome(j, id, op, ticket, witnessId, NoFault).result == Ok(Answer(Status.SETTLED))
    ensures FaultedTick(ExecuteOutcome(j, id, op, ticket, witnessId, NoFault),
                        ExecuteOutcome(j, id, op, ticket, witnessId, armed), armed)
  {
  }

  lemma FaultsOutsideExecution(db: Database, id: Id, witnessId: Id, armed: FaultPoint)
    requires !HandlerProofs.Executable(db, id)
    requires id in db.journal.operations ==> OperationInv(db.journal, db.authority, id)
    ensures TickOutcome(db, id, witnessId, NoFault).result != Ok(Answer(Status.SETTLED))
    ensures TickOutcome(db, id, witnessId, armed) == TickOutcome(db, id, witnessId, NoFault)
  {
  }

  lemma TickExecutes(db: Database, id: Id, witnessId: Id, armed: FaultPoint)
    requires HandlerProofs.Executable(db, id) && OperationInv(db.journal, db.authority, id)
    ensures TickOutcome(db, id, witnessId, armed)
         == ExecuteOutcome(db.journal, id, db.journal.operations[id], db.journal.queue[id], witnessId, armed)
    ensures id !in db.journal.effects && id !in db.journal.receipts
    ensures InRange(db.journal.operations[id].boundary.generation)
  {
  }

  /**
   Faults around a tick that settles: before the mutation nothing is committed,
   between effect and receipt only the effect, after the receipt everything; each
   kills the process.  No other tick is touched by a fault.
   */
  lemma TickFaults(db: Database, id: Id, witnessId: Id, armed: FaultPoint)
    requires AuthorityInv(db.authority) && JournalInv(db.journal, db.authority)
    ensures var plain, faulted := TickOutcome(db, id, witnessId, NoFault), TickOutcome(db, id, witnessId, armed);
      if plain.result == Ok(Answer(Status.SETTLED)) then FaultedTick(plain, faulted, armed) else faulted == plain
  {
    if id in db.journal.operations { assert OperationInv(db.journal, db.authority, id); }
    if HandlerProofs.Executable(db, id) {
      TickExecutes(db, id, witnessId, armed);
      TickExecutes(db, id, witnessId, NoFault);
      ExecuteFaults(db.journal, id, db.journal.operations[id], db.journal.queue[id], witnessId, armed);
    } else {
      FaultsOutsideExecution(db, id, witnessId, armed);
    }
  }

  lemma DequeueLeaves(db: Database, id: Id)
    requires id in db.journal.operations
    ensures var next := ApplyAll(db, [Dequeue(id)]);
      OnlyRow(db, next, id, db.journal.operations[id]) && next.journal.queue == db.journal.queue - {id}
  {
    RunsOne(db, Dequeue(id));
  }

  lemma MarkLeaves(db: Database, id: Id)
    requires id in db.journal.operations
    ensures var next, op := ApplyAll(db, [Dequeue(id), MarkTicketUnknown(id)]), db.journal.operations[id];
      && next.journal.queue == db.journal.queue - {id}
      && OnlyRow(db, next, id, op.(
           ticket := if op.ticket.None? then None else Some(op.ticket.value.(state := TICKET_UNKNOWN))))
  {
    AppliesTwo(db, Dequeue(id), MarkTicketUnknown(id));
  }

  lemma OtherTicks(db: Database, id: Id, witnessId: Id, armed: FaultPoint)
    requires id in db.journal.queue && id in db.journal.operations && OperationInv(db.journal, db.authority, id)
    requires !DispatchedRow(db, id)
    ensures var op := db.journal.operations[id];
      TickOutcome(db, id, witnessId, armed) ==
      if JournalTheorems.ResolvedState(op.state) then Say([Dequeue(id)], Answer(DUPLICATE))
      else Say([Dequeue(id), MarkTicketUnknown(id)], Answer(Status.UNKNOWN))
    ensures db.journal.operations[id].state.UNKNOWN? || JournalTheorems.ResolvedState(db.journal.operations[id].state)
  {
  }

  /** A tick of anything not dispatched: unknown to the queue, resolved, or uncertain with its effect on record. */
  lemma TickOfOthers(db: Database, id: Id, witnessId: Id, armed: FaultPoint)
    requires JournalInv(db.journal, db.authority) && !DispatchedRow(db, id)
    ensures var outcome := TickOutcome(db, id, witnessId, armed);
      var next := ApplyAll(db, outcome.steps);
      && outcome.action.Send?
      && if id !in db.journal.queue then outcome.result == Ok(Answer(NOT_FOUND)) && next == db
         else
           && id in db.journal.operations && next.journal.queue == db.journal.queue - {id}
           && var op := db.journal.operations[id];
           if JournalTheorems.ResolvedState(op.state)
           then outcome.result == Ok(Answer(DUPLICATE)) && OnlyRow(db, next, id, op)
           else
             && op.state.UNKNOWN? && outcome.result == Ok(Answer(Status.UNKNOWN))
             && OnlyRow(db, next, id, op.(
                  ticket := if op.ticket.None? then None else Some(op.ticket.value.(state := TICKET_UNKNOWN))))
  {
    if id in db.journal.queue {
      assert OperationInv(db.journal, db.authority, id);
      OtherTicks(db, id, witnessId, armed);
      DequeueLeaves(db, id);
      MarkLeaves(db, id);
    }
  }

  // ----- reconcile -----

  /** Every answer to a reconciliation under the current fence, and that only RECONCILED changes anything. */
  lemma ReconcileAnswers(db: Database, operation: OperationRef, strategy: Strategy, fence: FenceDocument)
    requires JournalInv(db.journal, db.authority) && CheckFence(db.authority, fence).None? && ValidContext(operation.context)
    ensures var outcome, j := ReconcileOutcome(db, operation, strategy, fence), db.journal;
      && outcome.action.Send?
      && (outcome.result.Err? <==> operation.id in j.operations && !Names(j, operation))
      && (outcome.result.Err? ==> outcome.result.error.Conflict?)
      && (outcome.result.Ok? ==>
            outcome.result.value == Answer(
              if operation.id !in j.operations then NOT_FOUND
              else if JournalTheorems.ResolvedState(j.operations[operation.id].state) then DUPLICATE
              else if operation.id in j.effects && strategy.RECEIPT_LOOKUP? then Status.RECONCILED
              else Status.UNKNOWN))
  {
    if operation.id in db.journal.operations { assert OperationInv(db.journal, db.authority, operation.id); }
  }

  /** A reconciliation without the open fence's document, or with a context out of range, is refused and changes nothing. */
  lemma ReconcileRefusals(db: Database, operation: OperationRef, strategy: Strategy, fence: FenceDocument)
    requires CheckFence(db.authority, fence).Some? || !ValidContext(operation.context)
    ensures var refusal := CheckFence(db.authority, fence);
      ReconcileOutcome(db, operation, strategy, fence) == Fail(if refusal.Some? then refusal.value else Invalid)
  {
  }

  /** What a reconciliation leaves: a resolved row when it answers RECONCILED, and otherwise everything as it was. */
  lemma ReconcileLeaves(db: Database, operation: OperationRef, strategy: Strategy, fence: FenceDocument)
    ensures var outcome := ReconcileOutcome(db, operation, strategy, fence);
      var next, id := ApplyAll(db, outcome.steps), operation.id;
      if outcome.result != Ok(Answer(Status.RECONCILED)) then next == db
      else
        && id in db.journal.operations && next.journal.queue == db.journal.queue
        && var op := db.journal.operations[id];
        OnlyRow(db, next, id, op.(
          state := JournalState.RECONCILED, uncertainty := None, strategy := Some(strategy),
          ticket := if op.ticket.None? then None else Some(op.ticket.value.(state := TICKET_SETTLED))))
  {
    RunsOne(db, ReconcileOperation(operation.id, strategy));
  }
}
