/** Every enabled commit keeps the sideband journal invariant. */
module JournalProofs {
  import opened Identity
  import opened HostRecords
  import opened HostCommits
  import opened HostInvariants

  /** The lease row may be renewed or revoked but is still the same grant. */
  ghost predicate LeaseContinues(a: Authority, b: Authority) {
    a.lease.Some? ==>
      && b.lease.Some?
      && var g, h := a.lease.value.grant, b.lease.value.grant;
      && h.epoch == g.epoch && h.holder == g.holder && h.fenceId == g.fenceId && g.expiresTick <= h.expiresTick
  }

  lemma JournalUnderAuthority(j: Journal, a: Authority, b: Authority)
    requires JournalInv(j, a) && LeaseContinues(a, b)
    ensures JournalInv(j, b)
  {
    forall id | id in j.operations ensures OperationInv(j, b, id) {
      assert OperationInv(j, a, id);
    }
  }

  lemma RotateKeeps(j: Journal, a: Authority, b: Authority)
    requires JournalInv(j, a)
    ensures JournalInv(RotateJournal(j), b)
  {
    var k := RotateJournal(j);
    forall id | id in k.operations ensures OperationInv(k, b, id) {
      assert OperationInv(j, a, id);
    }
  }

  ghost predicate SameRow<T>(m: map<Id, T>, n: map<Id, T>, id: Id) {
    (id in m <==> id in n) && (id in m ==> m[id] == n[id])
  }

  /** Only the rows of one operation differ. */
  ghost predicate SameElsewhere(j: Journal, k: Journal, id: Id) {
    forall other :: other != id ==>
      && SameRow(j.operations, k.operations, other) && SameRow(j.queue, k.queue, other)
      && SameRow(j.effects, k.effects, other) && SameRow(j.receipts, k.receipts, other)
  }

  lemma OneRowKeeps(j: Journal, k: Journal, a: Authority, id: Id)
    requires JournalInv(j, a) && SameElsewhere(j, k, id)
    requires id in k.operations && OperationInv(k, a, id)
    ensures JournalInv(k, a)
  {
    forall other | other in k.operations ensures OperationInv(k, a, other) {
      if other != id {
        assert SameRow(j.operations, k.operations, other);
        assert OperationInv(j, a, other);
      }
    }
    forall other | other in k.queue || other in k.effects || other in k.receipts ensures other in k.operations {
      if other != id { assert SameRow(j.operations, k.operations, other); }
    }
  }

  lemma IntentKeeps(db: Database, id: Id, row: OperationRow)
    requires JournalInv(db.journal, db.authority) && MayRecordIntent(db, id, row)
    ensures JournalInv(WithOperation(db.journal, id, row), db.authority)
  {
    OneRowKeeps(db.journal, WithOperation(db.journal, id, row), db.authority, id);
  }

  lemma AdmittedRow(db: Database, id: Id, t: Ticket, expires: int)
    requires MayAdmit(db, id, t, expires) && OperationInv(db.journal, db.authority, id)
    ensures OperationInv(AdmitJournal(db.journal, id, t, expires), db.authority, id)
  {
  }

  lemma RowsElsewhere(j: Journal, id: Id, t: Ticket, expires: int)
    ensures SameElsewhere(j, AdmitJournal(j, id, t, expires), id)
    ensures SameElsewhere(j, QuarantineJournal(j, id), id)
  {
  }

  lemma AdmitKeeps(db: Database, id: Id, t: Ticket, expires: int)
    requires JournalInv(db.journal, db.authority) && MayAdmit(db, id, t, expires)
    ensures JournalInv(AdmitJournal(db.journal, id, t, expires), db.authority)
  {
    AdmittedRow(db, id, t, expires);
    RowsElsewhere(db.journal, id, t, expires);
    OneRowKeeps(db.journal, AdmitJournal(db.journal, id, t, expires), db.authority, id);
  }

  lemma DequeueKeeps(j: Journal, a: Authority, id: Id)
    requires JournalInv(j, a) && id in j.operations && !j.operations[id].state.MAY_HAVE_BEEN_DISPATCHED?
    ensures JournalInv(j.(queue := j.queue - {id}), a)
  {
    assert OperationInv(j, a, id);
    OneRowKeeps(j, j.(queue := j.queue - {id}), a, id);
  }

  lemma MarkTicketKeeps(j: Journal, a: Authority, id: Id)
    requires JournalInv(j, a) && id in j.operations && j.operations[id].state.UNKNOWN?
    ensures JournalInv(MarkTicketJournal(j, id), a)
  {
    assert OperationInv(j, a, id);
    OneRowKeeps(j, MarkTicketJournal(j, id), a, id);
  }

  lemma QuarantinedOperation(j: Journal, a: Authority, id: Id)
    requires id in j.operations && OperationInv(j, a, id) && j.operations[id].state.MAY_HAVE_BEEN_DISPATCHED?
    ensures OperationInv(QuarantineJournal(j, id), a, id)
  {
  }

  lemma QuarantineKeeps(j: Journal, a: Authority, id: Id)
    requires JournalInv(j, a) && id in j.operations && j.operations[id].state.MAY_HAVE_BEEN_DISPATCHED?
    ensures JournalInv(QuarantineJournal(j, id), a)
  {
    QuarantinedOperation(j, a, id);
    RowsElsewhere(j, id, j.queue[id], 0);
    OneRowKeeps(j, QuarantineJournal(j, id), a, id);
  }

  lemma EffectedRow(db: Database, id: Id, w: Witness)
    requires MayRecordEffect(db, id, w) && OperationInv(db.journal, db.authority, id)
    ensures OperationInv(EffectJournal(db.journal, id, w), db.authority, id)
  {
  }

  lemma EffectElsewhere(j: Journal, id: Id, w: Witness)
    ensures SameElsewhere(j, EffectJournal(j, id, w), id)
  {
  }

  lemma EffectKeeps(db: Database, id: Id, w: Witness)
    requires JournalInv(db.journal, db.authority) && MayRecordEffect(db, id, w)
    ensures JournalInv(EffectJournal(db.journal, id, w), db.authority)
  {
    EffectedRow(db, id, w);
    EffectElsewhere(db.journal, id, w);
    OneRowKeeps(db.journal, EffectJournal(db.journal, id, w), db.authority, id);
  }

  lemma ReceiptKeeps(j: Journal, a: Authority, id: Id, receipt: Receipt)
    requires JournalInv(j, a) && id in j.operations && id !in j.receipts
    requires j.operations[id].state.UNKNOWN? && j.operations[id].effectWitness.Some?
    requires receipt == Receipt(id, j.operations[id].payload, j.operations[id].effectWitness.value)
    ensures JournalInv(j.(receipts := j.receipts[id := receipt]), a)
  {
    assert OperationInv(j, a, id);
    OneRowKeeps(j, j.(receipts := j.receipts[id := receipt]), a, id);
  }

  lemma SettleKeeps(j: Journal, a: Authority, id: Id, receipt: Receipt)
    requires JournalInv(j, a) && id in j.operations && j.operations[id].state.UNKNOWN?
    requires id in j.receipts && j.receipts[id] == receipt
    ensures JournalInv(SettleJournal(j, id, receipt), a)
  {
    assert OperationInv(j, a, id);
    OneRowKeeps(j, SettleJournal(j, id, receipt), a, id);
  }

  lemma ReconcileKeeps(j: Journal, a: Authority, id: Id, strategy: Strategy)
    requires JournalInv(j, a) && id in j.operations && j.operations[id].state.UNKNOWN? && id in j.effects
    requires strategy.RECEIPT_LOOKUP?
    ensures JournalInv(ReconcileJournal(j, id, strategy), a)
  {
    assert OperationInv(j, a, id);
    OneRowKeeps(j, ReconcileJournal(j, id, strategy), a, id);
  }
}
