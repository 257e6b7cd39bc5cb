/**
 The sideband journal handlers, statement by statement, against their
 specification.  `Tick` makes its four commits one after the other, with the
 fault points between them.
 */
module JournalMethods {
  import opened Wrappers
  import opened Identity
  import opened HostRecords
  import opened HostCommits
  import opened HostReplies
  import opened LeaseHandlers
  import opened JournalHandlers
  import opened HostStore

  method Intent(host: DurableHost, lease: LeaseDocument, operation: Operation)
    returns (result: Result<Reply, FixtureError>, action: ResponseAction)
    modifies host
    ensures host.Did(old(host.Tables()), old(host.committed),
                     IntentOutcome(old(host.Tables()), lease, operation), result, action)
  {
    action := Send;
    var refusal := CheckLease(host.Tables().authority, lease);
    if refusal.Some? { return Err(refusal.value), action; }
    if !ValidContext(operation.context) || !InRange(operation.boundary.generation) { return Err(Invalid), action; }
    if !ContextMatches(operation.context, lease) { return Err(Stale(LeaseSubject)), action; }
    if |operation.action| > MAX_ACTION_BYTES { return Err(Bounds), action; }
    var id := operation.id;
    if id in host.operations {
      var row := host.operations[id];
      if row.payload != operation.payload || row.context != operation.context
         || row.action != operation.action || row.boundary != operation.boundary
      {
        return Ok(Answer(CONFLICT)), action;
      }
      return Ok(Answer(if row.state.SETTLED? then DUPLICATE else Status.INTENT_RECORDED)), action;
    }
    if host.fence.None? { return Err(HostNotReady), action; }
    var row := OperationRow(operation.payload, lease.holder, lease.epoch, host.fence.value.fenceId,
                            JournalState.INTENT_RECORDED, None, operation.action, operation.boundary,
                            operation.context, None, 0, None, None, None);
    ApplyOne(host.Tables(), RecordIntent(id, row));
    host.operations := host.operations[id := row];
    host.committed := host.committed + [RecordIntent(id, row)];
    result := Ok(Answer(Status.INTENT_RECORDED));
  }

  method Dispatch(host: DurableHost, faults: FaultController, lease: LeaseDocument, operation: OperationRef, ticketId: Id)
    returns (result: Result<Reply, FixtureError>, action: ResponseAction)
    modifies host, faults
    ensures host.Did(old(host.Tables()), old(host.committed),
                     DispatchOutcome(old(host.Tables()), lease, operation, ticketId, old(faults.Armed())), result, action)
    ensures faults.point == old(faults.point) && faults.fired == (old(faults.fired) || action.Crash?)
  {
    action := Send;
    var refusal := CheckLease(host.Tables().authority, lease);
    if refusal.Some? { return Err(refusal.value), action; }
    if !ValidContext(operation.context) { return Err(Invalid), action; }
    if RefContradicts(host.Tables().journal, operation) { return Err(Conflict), action; }
    var id := operation.id;
    if id !in host.operations { return Ok(Answer(NOT_FOUND)), action; }
    var row := host.operations[id];
    if row.state.SETTLED? || row.state.RECONCILED? { return Ok(Answer(DUPLICATE)), action; }
    if row.state.UNKNOWN? { return Ok(Answer(Status.UNKNOWN)), action; }
    if row.state.MAY_HAVE_BEEN_DISPATCHED? { return Ok(Answer(Status.MAY_HAVE_BEEN_DISPATCHED)), action; }
    if |host.receipts| >= MAX_RECEIPTS { return Ok(Answer(BOUNDS_EXCEEDED)), action; }
    var fault := faults.At(BeforeAdmission);
    if fault.Some? { return Ok(Answer(Status.UNKNOWN)), fault.value; }
    if host.fence.None? { return Err(HostNotReady), action; }
    if host.lease.None? { return Err(SqlError), action; }
    var grant := host.lease.value.grant;
    var ticket := Ticket(ticketId, id, operation.payload, lease.holder.boot, lease.holder.incarnation,
                         lease.epoch, host.fence.value.fenceId, ISSUED, grant.expiresAt);
    var tx := host.Tables();
    tx := tx.(journal := WithOperation(tx.journal, id, row.(
      state := JournalState.MAY_HAVE_BEEN_DISPATCHED, ticket := Some(ticket), ticketExpiresTick := grant.expiresTick)));
    if id in tx.journal.queue { return Err(SqlError), action; }
    tx := tx.(journal := tx.journal.(queue := tx.journal.queue[id := ticket]));
    ApplyOne(host.Tables(), AdmitOperation(id, ticket, grant.expiresTick));
    host.Commit(tx, AdmitOperation(id, ticket, grant.expiresTick));
    fault := faults.At(AfterAdmission);
    result := Ok(Answer(Status.MAY_HAVE_BEEN_DISPATCHED));
    if fault.Some? { action := fault.value; }
  }

  /** The journal moves to UNKNOWN and the queue entry goes, in one transaction. */
  method Quarantine(host: DurableHost, id: Id) returns (done: bool)
    modifies host
    ensures done == (id in old(host.operations) && old(host.operations)[id].state.MAY_HAVE_BEEN_DISPATCHED?)
    ensures host.Tables() == if done then Apply(old(host.Tables()), QuarantineOperation(id)) else old(host.Tables())
    ensures host.committed == old(host.committed) + if done then [QuarantineOperation(id)] else []
  {
    var tx := host.Tables();
    if id !in tx.journal.operations || !tx.journal.operations[id].state.MAY_HAVE_BEEN_DISPATCHED? { return false; }
    tx := tx.(journal := WithOperation(tx.journal, id, QuarantinedRow(tx.journal.operations[id])));
    tx := tx.(journal := tx.journal.(queue := tx.journal.queue - {id}));
    host.Commit(tx, QuarantineOperation(id));
    done := true;
  }

  method SetTicketState(host: DurableHost, id: Id)
    modifies host
    ensures host.Tables() == Apply(old(host.Tables()), MarkTicketUnknown(id))
    ensures host.committed == old(host.committed) + [MarkTicketUnknown(id)]
  {
    if id in host.operations {
      host.operations := host.operations[id := host.operations[id].(
        ticket := TicketWith(host.operations[id].ticket, TICKET_UNKNOWN))];
    }
    host.committed := host.committed + [MarkTicketUnknown(id)];
  }

  lemma ApplyFour(db: Database, a: Step, b: Step, c: Step, d: Step)
    ensures ApplyAll(db, [a, b, c, d]) == Apply(Apply(Apply(Apply(db, a), b), c), d)
  {
    ApplyOne(db, a);
    ApplyMore(db, [a], b);
    ApplyMore(db, [a] + [b], c);
    ApplyMore(db, [a] + [b] + [c], d);
    assert [a, b, c, d] == [a] + [b] + [c] + [d];
  }

  lemma ApplyTwo(db: Database, a: Step, b: Step)
    ensures ApplyAll(db, [a, b]) == Apply(Apply(db, a), b)
  {
    ApplyOne(db, a);
    ApplyMore(db, [a], b);
    assert [a, b] == [a] + [b];
  }

  method RecordTheEffect(host: DurableHost, id: Id, effectWitness: Witness) returns (done: bool)
    requires id in host.operations
    modifies host
    ensures done == (id !in old(host.effects))
    ensures host.Tables() == if done then Apply(old(host.Tables()), RecordEffect(id, effectWitness)) else old(host.Tables())
    ensures host.committed == old(host.committed) + if done then [RecordEffect(id, effectWitness)] else []
  {
    var tx := host.Tables();
    var row := tx.journal.operations[id];
    if id in tx.journal.effects { return false; }
    tx := tx.(journal := tx.journal.(effects := tx.journal.effects[id := EffectRow(row.payload, effectWitness, effectWitness.effect)]));
    tx := tx.(journal := WithOperation(tx.journal, id, row.(
      state := JournalState.UNKNOWN, uncertainty := Some(RECEIPT_MISSING), effectWitness := Some(effectWitness),
      ticket := TicketWith(row.ticket, EFFECT_WITNESS_RECORDED))));
    host.Commit(tx, RecordEffect(id, effectWitness));
    done := true;
  }

  /** Receipt, settlement and queue removal: three separate statements, each its own commit. */
  method Settle(host: DurableHost, id: Id, receipt: Receipt) returns (done: bool)
    requires id in host.operations
    modifies host
    ensures done == (id !in old(host.receipts))
    ensures done ==>
      && host.Tables() == Apply(Apply(Apply(old(host.Tables()), RecordReceipt(id, receipt)), SettleOperation(id, receipt)), Dequeue(id))
      && host.committed == old(host.committed) + [RecordReceipt(id, receipt), SettleOperation(id, receipt), Dequeue(id)]
    ensures !done ==> host.Tables() == old(host.Tables()) && host.committed == old(host.committed)
  {
    if id in host.receipts { return false; }
    host.receipts := host.receipts[id := receipt];
    host.committed := host.committed + [RecordReceipt(id, receipt)];
    var row := host.operations[id];
    host.operations := host.operations[id := row.(
      state := JournalState.SETTLED, uncertainty := None, receipt := Some(receipt),
      ticket := TicketWith(row.ticket, TICKET_SETTLED))];
    host.committed := host.committed + [SettleOperation(id, receipt)];
    host.queue := host.queue - {id};
    host.committed := host.committed + [Dequeue(id)];
    done := true;
  }

  /** The two fault points that lie between the effect and its receipt. */
  method BetweenEffectAndReceipt(faults: FaultController) returns (fault: Option<ResponseAction>)
    modifies faults
    ensures faults.point == old(faults.point) && faults.fired == (old(faults.fired) || fault.Some?)
    ensures fault == if old(faults.Armed()).AfterMutation? || old(faults.Armed()).BeforeReceipt? then Some(Crash) else None
  {
    fault := faults.At(AfterMutation);
    if fault.None? { fault := faults.At(BeforeReceipt); }
  }

  lemma CommitsOf(log: seq<Step>, id: Id, effectWitness: Witness, payload: Digest)
    ensures TickCommits(id, effectWitness, payload)[..1] == [RecordEffect(id, effectWitness)]
    ensures var receipt := Receipt(id, payload, effectWitness);
      log + TickCommits(id, effectWitness, payload)
      == log + [RecordEffect(id, effectWitness)] + [RecordReceipt(id, receipt), SettleOperation(id, receipt), Dequeue(id)]
  {
  }

  method Execute(host: DurableHost, faults: FaultController, id: Id, ticket: Ticket, witnessId: Id)
    returns (result: Result<Reply, FixtureError>, action: ResponseAction)
    requires id in host.operations
    modifies host, faults
    ensures host.Did(old(host.Tables()), old(host.committed),
                     ExecuteOutcome(old(host.Tables()).journal, id, old(host.operations)[id], ticket, witnessId, old(faults.Armed())),
                     result, action)
    ensures faults.point == old(faults.point) && faults.fired == (old(faults.fired) || action.Crash?)
  {
    action := Send;
    ghost var before, log := host.Tables(), host.committed;
    var fault := faults.At(BeforeMutation);
    if fault.Some? { return Ok(Answer(Status.MAY_HAVE_BEEN_DISPATCHED)), fault.value; }
    var row := host.operations[id];
    var effectWitness := Witness(witnessId, id, row.payload, ticket.boot, ticket.incarnation, ticket.fenceId, HOST_GAME_THREAD,
                                 row.boundary.stateId, row.boundary.generation, EffectDigest(id, row.payload));
    if !InRange(effectWitness.generation) { return Err(Invalid), action; }
    var receipt := Receipt(id, row.payload, effectWitness);
    ApplyOne(before, RecordEffect(id, effectWitness));
    ApplyFour(before, RecordEffect(id, effectWitness), RecordReceipt(id, receipt), SettleOperation(id, receipt), Dequeue(id));
    var done := RecordTheEffect(host, id, effectWitness);
    if !done { return Err(SqlError), action; }
    CommitsOf(log, id, effectWitness, row.payload);
    fault := BetweenEffectAndReceipt(faults);
    if fault.Some? { return Ok(Answer(Status.UNKNOWN)), fault.value; }
    done := Settle(host, id, receipt);
    if !done { return Err(SqlError), action; }
    fault := faults.At(AfterReceipt);
    result := Ok(Answer(Status.SETTLED));
    if fault.Some? { action := fault.value; }
  }

  method Tick(host: DurableHost, faults: FaultController, id: Id, witnessId: Id)
    returns (result: Result<Reply, FixtureError>, action: ResponseAction)
    modifies host, faults
    ensures host.Did(old(host.Tables()), old(host.committed),
                     TickOutcome(old(host.Tables()), id, witnessId, old(faults.Armed())), result, action)
    ensures faults.point == old(faults.point) && faults.fired == (old(faults.fired) || action.Crash?)
  {
    action := Send;
    ghost var before := host.Tables();
    if id !in host.queue || id !in host.operations { return Ok(Answer(NOT_FOUND)), action; }
    var ticket, row := host.queue[id], host.operations[id];
    if row.state.SETTLED? || row.state.RECONCILED? {
      ApplyOne(before, Dequeue(id));
      host.queue := host.queue - {id};
      host.committed := host.committed + [Dequeue(id)];
      return Ok(Answer(DUPLICATE)), action;
    }
    if row.effectWitness.Some? || row.state.UNKNOWN? {
      ApplyTwo(before, Dequeue(id), MarkTicketUnknown(id));
      host.queue := host.queue - {id};
      host.committed := host.committed + [Dequeue(id)];
      SetTicketState(host, id);
      return Ok(Answer(Status.UNKNOWN)), action;
    }
    if !row.state.MAY_HAVE_BEEN_DISPATCHED? { return Ok(Answer(Status.REJECTED)), action; }
    ApplyOne(before, QuarantineOperation(id));
    if host.clock >= row.ticketExpiresTick {
      var _ := Quarantine(host, id);
      return Ok(Answer(LEASE_EXPIRED)), action;
    }
    var mismatch := CheckTicket(ticket, id, row.payload, row.context);
    if mismatch.Some? { return Err(mismatch.value), action; }
    var refusal := CheckTicketAuthority(host.Tables().authority, ticket);
    if refusal.Some? {
      var _ := Quarantine(host, id);
      return Ok(Answer(ErrorStatus(refusal.value))), action;
    }
    result, action := Execute(host, faults, id, ticket, witnessId);
  }

  method Reconcile(host: DurableHost, operation: OperationRef, strategy: Strategy, fence: FenceDocument)
    returns (result: Result<Reply, FixtureError>, action: ResponseAction)
    modifies host
    ensures host.Did(old(host.Tables()), old(host.committed),
                     ReconcileOutcome(old(host.Tables()), operation, strategy, fence), result, action)
  {
    action := Send;
    var refusal := CheckFence(host.Tables().authority, fence);
    if refusal.Some? { return Err(refusal.value), action; }
    if !ValidContext(operation.context) { return Err(Invalid), action; }
    if RefContradicts(host.Tables().journal, operation) { return Err(Conflict), action; }
    var id := operation.id;
    if id !in host.operations { return Ok(Answer(NOT_FOUND)), action; }
    var row := host.operations[id];
    if row.effectWitness.None? { return Ok(Answer(Status.UNKNOWN)), action; }
    var effectWitness := row.effectWitness.value;
    var doubt := CheckWitness(host.Tables().journal, id, operation.payload, effectWitness);
    if doubt.Some? { return Err(doubt.value), action; }
    if row.state.SETTLED? || row.state.RECONCILED? { return Ok(Answer(DUPLICATE)), action; }
    if strategy.QUARANTINE? { return Ok(Answer(Status.UNKNOWN)), action; }
    if !StrategyMatches(strategy, effectWitness.source) { return Ok(Answer(Status.UNKNOWN)), action; }
    ApplyOne(host.Tables(), ReconcileOperation(id, strategy));
    host.operations := host.operations[id := row.(
      state := JournalState.RECONCILED, uncertainty := None, strategy := Some(strategy),
      ticket := TicketWith(row.ticket, TICKET_SETTLED))];
    host.committed := host.committed + [ReconcileOperation(id, strategy)];
    result := Ok(Answer(Status.RECONCILED));
  }
}
