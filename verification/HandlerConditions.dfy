/**
 Exactly when the handlers succeed, in any safe state, in terms of the tables and
 the documents presented.
 */
module HandlerConditions {
  import opened Identity
  import opened FixtureClock
  import opened HostRecords
  import opened HostCommits
  import opened HostReplies
  import opened LeaseHandlers
  import opened JournalHandlers
  import opened RuntimeHandlers
  import opened HostInvariants
  import AuthorityProofs
  import AuthorityTheorems
  import HandlerProofs
  import HostReplays

  // ----- leases -----

  /** The document is the one of the live lease, whose deadline still prints as a timestamp. */
  ghost predicate Presents(a: Authority, doc: LeaseDocument) {
    && LeaseLive(a) && a.fence.Some?
    && doc == GrantDocument(a.lease.value.grant, FIXTURE_TOKEN, a.fence.value.authorityGeneration)
    && a.lease.value.grant.expiresTick < CLOCK_LIMIT
  }

  lemma AcceptedIsCurrent(a: Authority, doc: LeaseDocument)
    requires AuthorityInv(a) && CheckLease(a, doc).None?
    ensures LeaseLive(a) && a.fence.Some?
    ensures doc == GrantDocument(a.lease.value.grant, FIXTURE_TOKEN, a.fence.value.authorityGeneration)
  {
  }

  /** A lease document is accepted if and only if it is the document of the live lease, below one hundred hours. */
  lemma AcceptedIff(a: Authority, doc: LeaseDocument)
    requires AuthorityInv(a)
    ensures CheckLease(a, doc).None? <==> Presents(a, doc)
  {
    if CheckLease(a, doc).None? { AcceptedIsCurrent(a, doc); }
    if LeaseLive(a) { HostReplays.CurrentDocumentAccepted(a); }
  }

  lemma RenewsWhen(a: Authority, doc: LeaseDocument, sequence: int)
    requires AuthorityInv(a)
    ensures RenewOutcome(a, doc, sequence).result.Ok? <==>
      CheckLease(a, doc).None? && a.lease.Some? && sequence == SaturatingAdd(a.lease.value.grant.renewSequence, 1) && 1 <= sequence
    ensures RenewOutcome(a, doc, sequence).result.Ok? ==> RenewOutcome(a, doc, sequence).steps == [RenewLease(doc.leaseId, sequence)]
  {
  }

  lemma RenewalMovesClock(db: Database, doc: LeaseDocument, sequence: int)
    requires db.authority.lease.Some?
    ensures Apply(db, RenewLease(doc.leaseId, sequence)).authority.clock == RenewedClock(db.authority)
  {
  }

  /** A renewal succeeds exactly with the live lease's document and the next sequence number, and moves the clock one interval. */
  lemma RenewsIff(db: Database, doc: LeaseDocument, sequence: int)
    requires AuthorityInv(db.authority)
    ensures RenewOutcome(db.authority, doc, sequence).result.Ok? <==>
      Presents(db.authority, doc) && sequence == db.authority.lease.value.grant.renewSequence + 1
    ensures RenewOutcome(db.authority, doc, sequence).result.Ok? ==>
      && RenewOutcome(db.authority, doc, sequence).steps == [RenewLease(doc.leaseId, sequence)]
      && Apply(db, RenewLease(doc.leaseId, sequence)).authority.clock
         == db.authority.clock + db.authority.lease.value.grant.renewal
  {
    AcceptedIff(db.authority, doc);
    RenewsWhen(db.authority, doc, sequence);
    if LeaseLive(db.authority) {
      AuthorityTheorems.LeaseArithmetic(db.authority);
      RenewalMovesClock(db, doc, sequence);
    }
  }

  /** Some renewal moves the clock exactly while a live lease's deadline is below one hundred hours: nothing else bounds it. */
  lemma ClockMovesIff(db: Database)
    requires AuthorityInv(db.authority)
    ensures (exists doc, sequence :: RenewOutcome(db.authority, doc, sequence).result.Ok?) <==>
      LeaseLive(db.authority) && db.authority.clock + db.authority.lease.value.grant.ttl < CLOCK_LIMIT
  {
    if LeaseLive(db.authority) {
      var g := db.authority.lease.value.grant;
      AuthorityTheorems.LiveIsReady(db.authority);
      RenewsIff(db, GrantDocument(g, FIXTURE_TOKEN, db.authority.fence.value.authorityGeneration), g.renewSequence + 1);
    }
    if doc, sequence :| RenewOutcome(db.authority, doc, sequence).result.Ok? {
      RenewsIff(db, doc, sequence);
    }
  }

  /** An acquisition succeeds exactly with the documents of the open fence, a fresh lease id and an epoch left. */
  lemma AcquiresIff(a: Authority, boot: BootDocument, fence: FenceDocument, leaseId: Id)
    requires AuthorityInv(a)
    ensures AcquireOutcome(a, boot, fence, leaseId).result.Ok? <==>
      && a.fence.Some? && a.fence.value.state.READY?
      && var row := a.fence.value;
      && boot == BootDocument(row.holder, row.authorityGeneration)
      && fence == FenceDocument(row.fenceId, row.holder, row.authorityGeneration, row.authorityGeneration)
      && leaseId !in a.history && row.epochCounter < MAX_INTEGER
  {
    AuthorityProofs.CounterIsMaxEpoch(a);
    assert ArchiveLease(a) == a;
    assert EpochCounter(a) + 1 !in Epochs(a.history);
  }

  // ----- sideband operations -----

  /** An intent is recorded exactly for a new operation submitted under the presented live lease, within bounds. */
  lemma RecordsIff(db: Database, lease: LeaseDocument, operation: Operation)
    requires AuthorityInv(db.authority)
    ensures IntentOutcome(db, lease, operation).steps != [] <==>
      && Presents(db.authority, lease) && operation.id !in db.journal.operations
      && operation.context == OriginalContext(lease.holder, lease.authorityGeneration, lease.leaseId, lease.epoch)
      && InRange(operation.boundary.generation) && |operation.action| <= MAX_ACTION_BYTES
  {
    AcceptedIff(db.authority, lease);
    IntentWhen(db, lease, operation);
  }

  lemma IntentWhen(db: Database, lease: LeaseDocument, operation: Operation)
    ensures IntentOutcome(db, lease, operation).steps != [] <==>
      && CheckLease(db.authority, lease).None? && operation.id !in db.journal.operations
      && operation.context == OriginalContext(lease.holder, lease.authorityGeneration, lease.leaseId, lease.epoch)
      && InRange(operation.boundary.generation) && |operation.action| <= MAX_ACTION_BYTES
  {
  }

  /** A dispatch is admitted exactly for a recorded intent named with its digest and context, while there is room for receipts. */
  lemma DispatchesIff(db: Database, lease: LeaseDocument, operation: OperationRef, ticketId: Id)
    requires AuthorityInv(db.authority) && JournalInv(db.journal, db.authority)
    ensures DispatchOutcome(db, lease, operation, ticketId, NoFault).steps != [] <==>
      && Presents(db.authority, lease) && ValidContext(operation.context) && operation.id in db.journal.operations
      && var op := db.journal.operations[operation.id];
      && op.state.INTENT_RECORDED? && op.payload == operation.payload && op.context == operation.context
      && |db.journal.receipts| < MAX_RECEIPTS
  {
    AcceptedIff(db.authority, lease);
    if operation.id in db.journal.operations { assert OperationInv(db.journal, db.authority, operation.id); }
    DispatchWhen(db, lease, operation, ticketId);
  }

  lemma DispatchWhen(db: Database, lease: LeaseDocument, operation: OperationRef, ticketId: Id)
    requires operation.id in db.journal.operations && db.journal.operations[operation.id].state.INTENT_RECORDED? ==>
      operation.id !in db.journal.queue
    ensures DispatchOutcome(db, lease, operation, ticketId, NoFault).steps != [] <==>
      && CheckLease(db.authority, lease).None? && ValidContext(operation.context) && operation.id in db.journal.operations
      && var op := db.journal.operations[operation.id];
      && op.state.INTENT_RECORDED? && op.payload == operation.payload && op.context == operation.context
      && |db.journal.receipts| < MAX_RECEIPTS
  {
  }

  // ----- runtime actions -----

  /** Everything an action must meet to be admitted into a session. */
  ghost predicate Admissible(db: Database, request: RuntimeRequest, s: Session)
    requires request.kind.DispatchRequest?
  {
    && request.kind.operation !in db.runtime.operations
    && request.generation == s.generation && request.kind.stateId == s.stateId && request.kind.action in s.legalActions
    && UnresolvedOfInstance(db.runtime, s.instance) == {} && |db.runtime.operations| < MAX_RUNTIME_OPERATIONS
  }

  lemma SessionFree(r: Runtime, s: Session)
    requires PlacesInv(r) && s.session in r.sessions && s == r.sessions[s.session]
    requires UnresolvedOfInstance(r, s.instance) == {}
    ensures UnresolvedOfSession(r, s.session) == {}
  {
    forall id | id in r.operations && r.operations[id].session == s.session ensures !Unresolved(r.operations[id]) {
      assert PlacedIn(r.sessions, r.queue, r.operations[id]);
      assert id !in UnresolvedOfInstance(r, s.instance);
    }
  }

  lemma AdmitsWhen(db: Database, request: RuntimeRequest, s: Session)
    requires RowsInv(db.runtime.operations) && PlacesInv(db.runtime) && db.runtime.queue <= db.runtime.operations.Keys
    requires s.session in db.runtime.sessions && s == db.runtime.sessions[s.session] && request.kind.DispatchRequest?
    ensures var outcome := DispatchRuntime(db.runtime, request, s);
      && (outcome.steps != [] <==> Admissible(db, request, s))
      && (outcome.steps != [] ==>
            outcome == Respond([AdmitRuntime(AdmittedOperation(s, request.kind.operation, request.kind.action))],
                               Accepted(request.kind.operation, s.observation)))
  {
    if Admissible(db, request, s) { SessionFree(db.runtime, s); }
    if DispatchRuntime(db.runtime, request, s).steps != [] { HandlerProofs.DispatchRuntimeEnabled(db.runtime, request, s); }
  }

  lemma ServesWhen(db: Database, request: RuntimeRequest, s: Session, current: bool, witnessId: Id, step: Step)
    requires request.kind.DispatchRequest? && step.AdmitRuntime?
    ensures step in ServeSession(db, request, s, current, witnessId).steps <==>
      current && NamesSession(s, request) && !s.stopped && step in DispatchRuntime(db.runtime, request, s).steps
  {
  }

  /**
   An action sent to a known session is admitted if and only if the authority is
   current, the request names the session as it stands, the session goes on, the
   action is new and legal, its instance has nothing unresolved and the journal
   has room.
   */
  lemma AdmitsIff(db: Database, request: RuntimeRequest, witnessId: Id)
    requires RuntimeInv(db.runtime) && request.kind.DispatchRequest? && request.session in db.runtime.sessions
    ensures var s := db.runtime.sessions[request.session];
      AdmitRuntime(AdmittedOperation(s, request.kind.operation, request.kind.action))
        in RuntimeOutcome(db, request, witnessId).steps
      <==> && AuthorityCurrent(db.authority, request.instance, request.leaseId, request.epoch)
           && NamesSession(s, request) && !s.stopped && Admissible(db, request, s)
  {
    var s := db.runtime.sessions[request.session];
    var step := AdmitRuntime(AdmittedOperation(s, request.kind.operation, request.kind.action));
    assert SessionInv(db.runtime.operations, request.session, s);
    HandlerProofs.SessionFound(db.runtime, request.session);
    AdmitsWhen(db, request, s);
    ServesWhen(db, request, s, AuthorityCurrent(db.authority, request.instance, request.leaseId, request.epoch), witnessId, step);
  }
}
