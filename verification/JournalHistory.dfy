/**
 What never goes backwards in the sideband journal: operation states, witnesses,
 effect rows and receipt rows.
 */
module JournalHistory {
  import opened Wrappers
  import opened Identity
  import opened HostRecords
  import opened HostCommits
  import opened HostInvariants
  import opened HostRuns
  import JournalProofs

  function Rank(state: JournalState): nat {
    match state
    case INTENT_RECORDED => 0
    case MAY_HAVE_BEEN_DISPATCHED => 1
    case UNKNOWN => 2
    case SETTLED => 3
    case RECONCILED => 3
  }

  ghost predicate Resolved(op: OperationRow) { op.state.SETTLED? || op.state.RECONCILED? }

  /** The columns an operation keeps from its intent on. */
  ghost predicate SameIdentity(x: OperationRow, y: OperationRow) {
    && y.payload == x.payload && y.holder == x.holder && y.epoch == x.epoch && y.fenceId == x.fenceId
    && y.action == x.action && y.boundary == x.boundary && y.context == x.context
  }

  /** One operation as it ages. */
  ghost predicate RowAges(x: OperationRow, y: OperationRow) {
    && SameIdentity(x, y)
    && (x.state == y.state || Rank(x.state) < Rank(y.state))
    && (x.effectWitness.Some? ==> y.effectWitness == x.effectWitness)
    && (x.receipt.Some? ==> y.receipt == x.receipt)
    && (x.state.UNKNOWN? && x.effectWitness.None? ==> y.state.UNKNOWN? && y.effectWitness.None?)
    && (Resolved(x) ==> y == x)
  }

  /** One commit moves an operation at most one place along its life cycle. */
  ghost predicate RowSteps(x: OperationRow, y: OperationRow) {
    RowAges(x, y) && Rank(y.state) <= Rank(x.state) + 1
  }

  ghost predicate RowsAge(m: map<Id, OperationRow>, n: map<Id, OperationRow>) {
    forall id :: id in m ==> id in n && RowAges(m[id], n[id])
  }

  /** Every row of one table is a row of the other, unchanged. */
  ghost predicate RowsKept<T>(m: map<Id, T>, n: map<Id, T>) {
    forall id :: id in m ==> id in n && n[id] == m[id]
  }

  ghost predicate JournalGrows(j: Journal, k: Journal) {
    RowsAge(j.operations, k.operations) && RowsKept(j.effects, k.effects) && RowsKept(j.receipts, k.receipts)
  }

  lemma GrowsReflexive(j: Journal)
    ensures JournalGrows(j, j)
  {
  }

  lemma GrowsTransitive(j: Journal, k: Journal, l: Journal)
    requires JournalGrows(j, k) && JournalGrows(k, l)
    ensures JournalGrows(j, l)
  {
    forall id | id in j.operations ensures id in l.operations && RowAges(j.operations[id], l.operations[id]) {
      assert RowAges(j.operations[id], k.operations[id]) && RowAges(k.operations[id], l.operations[id]);
    }
  }

  lemma QuarantineAges(op: OperationRow)
    requires op.state.MAY_HAVE_BEEN_DISPATCHED? && op.effectWitness.None?
    ensures RowSteps(op, QuarantinedRow(op))
  {
  }

  lemma RotatedRow(j: Journal, a: Authority, id: Id)
    requires id in j.operations && OperationInv(j, a, id)
    ensures RowSteps(j.operations[id], RotateJournal(j).operations[id])
  {
    if j.operations[id].state.MAY_HAVE_BEEN_DISPATCHED? { QuarantineAges(j.operations[id]); }
  }

  lemma RotationGrows(j: Journal, a: Authority)
    requires JournalInv(j, a)
    ensures JournalGrows(j, RotateJournal(j))
    ensures forall id :: id in j.operations ==> RowSteps(j.operations[id], RotateJournal(j).operations[id])
  {
    forall id | id in j.operations ensures RowSteps(j.operations[id], RotateJournal(j).operations[id]) {
      RotatedRow(j, a, id);
    }
  }

  /** A commit about one operation ages that row and leaves the others alone. */
  lemma OneRowGrows(j: Journal, k: Journal, id: Id)
    requires JournalProofs.SameElsewhere(j, k, id)
    requires id in j.operations ==> id in k.operations && RowSteps(j.operations[id], k.operations[id])
    requires id in j.effects ==> id in k.effects && k.effects[id] == j.effects[id]
    requires id in j.receipts ==> id in k.receipts && k.receipts[id] == j.receipts[id]
    ensures JournalGrows(j, k)
    ensures forall other :: other in j.operations ==> RowSteps(j.operations[other], k.operations[other])
  {
    forall other | other in j.operations ensures other in k.operations && RowSteps(j.operations[other], k.operations[other]) {
      if other != id { assert JournalProofs.SameRow(j.operations, k.operations, other); }
    }
    forall other | other in j.effects ensures other in k.effects && k.effects[other] == j.effects[other] {
      if other != id { assert JournalProofs.SameRow(j.effects, k.effects, other); }
    }
    forall other | other in j.receipts ensures other in k.receipts && k.receipts[other] == j.receipts[other] {
      if other != id { assert JournalProofs.SameRow(j.receipts, k.receipts, other); }
    }
  }

  ghost predicate AboutOperation(step: Step) { MovesOperation(step) || ResolvesOperation(step) }

  lemma UnchangedAges(op: OperationRow)
    ensures RowSteps(op, op)
  {
  }

  lemma AdmissionAges(op: OperationRow, ticket: Ticket, expires: int)
    requires op.state.INTENT_RECORDED? && op.effectWitness.None?
    ensures RowSteps(op, op.(state := JournalState.MAY_HAVE_BEEN_DISPATCHED, ticket := Some(ticket), ticketExpiresTick := expires))
  {
  }

  lemma TicketAges(op: OperationRow)
    requires op.state.UNKNOWN?
    ensures RowSteps(op, op.(ticket := TicketWith(op.ticket, TICKET_UNKNOWN)))
  {
  }

  lemma MovingStepRow(db: Database, step: Step)
    requires Enabled(db, step) && MovesOperation(step) && step.id in db.journal.operations
    requires OperationInv(db.journal, db.authority, step.id)
    ensures step.id in Apply(db, step).journal.operations
    ensures RowSteps(db.journal.operations[step.id], Apply(db, step).journal.operations[step.id])
  {
    var op := db.journal.operations[step.id];
    match step
    case AdmitOperation(_, ticket, expires) => AdmissionAges(op, ticket, expires);
    case Dequeue(_) => UnchangedAges(op);
    case MarkTicketUnknown(_) => TicketAges(op);
    case QuarantineOperation(_) => QuarantineAges(op);
    case _ =>
  }

  lemma MovingStepElsewhere(db: Database, step: Step)
    requires MovesOperation(step)
    ensures JournalProofs.SameElsewhere(db.journal, Apply(db, step).journal, step.id)
    ensures Apply(db, step).journal.effects == db.journal.effects
    ensures Apply(db, step).journal.receipts == db.journal.receipts
  {
  }

  lemma EffectAges(op: OperationRow, w: Witness)
    requires op.state.MAY_HAVE_BEEN_DISPATCHED? && op.effectWitness.None?
    ensures RowSteps(op, op.(state := JournalState.UNKNOWN, uncertainty := Some(RECEIPT_MISSING), effectWitness := Some(w),
                             ticket := TicketWith(op.ticket, EFFECT_WITNESS_RECORDED)))
  {
  }

  lemma SettlementAges(op: OperationRow, receipt: Receipt)
    requires op.state.UNKNOWN? && op.effectWitness.Some? && (op.receipt.Some? ==> op.receipt.value == receipt)
    ensures RowSteps(op, op.(state := JournalState.SETTLED, uncertainty := None, receipt := Some(receipt),
                             ticket := TicketWith(op.ticket, TICKET_SETTLED)))
  {
  }

  lemma ReconciliationAges(op: OperationRow, strategy: Strategy)
    requires op.state.UNKNOWN? && op.effectWitness.Some?
    ensures RowSteps(op, op.(state := JournalState.RECONCILED, uncertainty := None, strategy := Some(strategy),
                             ticket := TicketWith(op.ticket, TICKET_SETTLED)))
  {
  }

  lemma ResolvingStepRow(db: Database, step: Step)
    requires Enabled(db, step) && ResolvesOperation(step)
    requires step.id in db.journal.operations && OperationInv(db.journal, db.authority, step.id)
    ensures var k := Apply(db, step).journal;
      && step.id in k.operations && RowSteps(db.journal.operations[step.id], k.operations[step.id])
      && (step.id in db.journal.effects ==> step.id in k.effects && k.effects[step.id] == db.journal.effects[step.id])
      && (step.id in db.journal.receipts ==> step.id in k.receipts && k.receipts[step.id] == db.journal.receipts[step.id])
  {
    var op := db.journal.operations[step.id];
    match step
    case RecordEffect(_, w) => EffectAges(op, w);
    case RecordReceipt(_, _) => UnchangedAges(op);
    case SettleOperation(_, receipt) => SettlementAges(op, receipt);
    case ReconcileOperation(_, strategy) => ReconciliationAges(op, strategy);
  }

  lemma ResolvingStepElsewhere(db: Database, step: Step)
    requires Enabled(db, step) && ResolvesOperation(step)
    ensures JournalProofs.SameElsewhere(db.journal, Apply(db, step).journal, step.id)
  {
  }

  lemma OperationStepGrows(db: Database, step: Step)
    requires JournalInv(db.journal, db.authority) && Enabled(db, step) && AboutOperation(step)
    ensures JournalGrows(db.journal, Apply(db, step).journal)
    ensures forall id :: id in db.journal.operations ==> RowSteps(db.journal.operations[id], Apply(db, step).journal.operations[id])
  {
    if MovesOperation(step) {
      if step.id in db.journal.operations { MovingStepRow(db, step); }
      MovingStepElsewhere(db, step);
    } else {
      ResolvingStepRow(db, step);
      ResolvingStepElsewhere(db, step);
    }
    OneRowGrows(db.journal, Apply(db, step).journal, step.id);
  }

  lemma OtherStepKeeps(db: Database, step: Step)
    requires !RotatesAuthority(step) && !AboutOperation(step)
    ensures Apply(db, step).journal == db.journal
  {
  }

  /** Every commit ages every row, by at most one place. */
  lemma StepGrows(db: Database, step: Step)
    requires JournalInv(db.journal, db.authority) && Enabled(db, step)
    ensures JournalGrows(db.journal, Apply(db, step).journal)
    ensures forall id :: id in db.journal.operations ==> RowSteps(db.journal.operations[id], Apply(db, step).journal.operations[id])
  {
    if RotatesAuthority(step) { RotationGrows(db.journal, db.authority); }
    else if AboutOperation(step) { OperationStepGrows(db, step); }
    else { OtherStepKeeps(db, step); }
  }

  lemma JournalSafe(db: Database, steps: seq<Step>)
    requires Inv(db) && Runs(db, steps)
    ensures JournalInv(ApplyAll(db, steps).journal, ApplyAll(db, steps).authority)
  {
    RunKeeps(db, steps);
  }

  lemma LastStepGrows(db: Database, steps: seq<Step>)
    requires Inv(db) && Runs(db, steps) && steps != []
    ensures JournalGrows(ApplyAll(db, steps[..|steps| - 1]).journal, ApplyAll(db, steps).journal)
  {
    JournalSafe(db, steps[..|steps| - 1]);
    StepGrows(ApplyAll(db, steps[..|steps| - 1]), steps[|steps| - 1]);
  }

  /**
   Over any run states only move forward, an operation that became uncertain
   without a witness stays so for ever, a resolved row never changes again, and
   effect and receipt rows are never changed or removed.
   */
  lemma {:induction false} RunGrows(db: Database, steps: seq<Step>)
    requires Inv(db) && Runs(db, steps)
    ensures JournalGrows(db.journal, ApplyAll(db, steps).journal)
    decreases |steps|
  {
    if steps == [] {
      GrowsReflexive(db.journal);
    } else {
      RunGrows(db, steps[..|steps| - 1]);
      LastStepGrows(db, steps);
      GrowsTransitive(db.journal, ApplyAll(db, steps[..|steps| - 1]).journal, ApplyAll(db, steps).journal);
    }
  }
}
