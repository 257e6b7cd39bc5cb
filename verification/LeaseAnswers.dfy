/**
 What each fencing and lease request answers and leaves behind in a safe state:
 every answer with its exact condition, every table after the request.
 */
module LeaseAnswers {
  import opened Wrappers
  import opened Identity
  import opened FixtureClock
  import opened HostRecords
  import opened HostCommits
  import opened HostReplies
  import opened LeaseHandlers
  import opened RuntimeHandlers
  import opened HostInvariants
  import opened HostRuns
  import AuthorityProofs
  import AuthorityTheorems
  import HandlerConditions
  import RuntimeTheorems

  // ----- refusals -----

  /** Why a lease document is refused. */
  lemma LeaseRefusals(a: Authority, doc: LeaseDocument)
    requires AuthorityInv(a)
    ensures CheckLease(a, doc) == Some(Invalid) <==> !ValidLeaseDocument(doc)
    ensures CheckLease(a, doc) == Some(HostNotReady) <==> ValidLeaseDocument(doc) && a.lease.None?
    ensures CheckLease(a, doc) == Some(Stale(RevokedLeaseSubject)) <==>
      ValidLeaseDocument(doc) && a.lease.Some? && a.lease.value.grant.revoked
    ensures CheckLease(a, doc) == Some(Stale(LeaseSubject)) <==>
      ValidLeaseDocument(doc) && LeaseLive(a) && !HandlerConditions.Presents(a, doc)
  {
    HandlerConditions.AcceptedIff(a, doc);
  }

  /** A fence document is accepted exactly when it is the document of the open fence; otherwise the reason is told. */
  lemma FenceRefusals(a: Authority, fence: FenceDocument)
    requires AuthorityInv(a)
    ensures CheckFence(a, fence).None? <==>
      && a.fence.Some? && a.fence.value.state.READY?
      && var row := a.fence.value;
      fence == FenceDocument(row.fenceId, row.holder, row.authorityGeneration, row.authorityGeneration)
    ensures CheckFence(a, fence) == Some(Invalid) <==> !ValidFence(fence)
    ensures CheckFence(a, fence) == Some(HostNotReady) <==>
      ValidFence(fence) && (a.fence.None? || !a.fence.value.state.READY?)
    ensures CheckFence(a, fence).Some? ==> CheckFence(a, fence).value in {Invalid, HostNotReady, Stale(FenceSubject)}
  {
  }

  // ----- what a new authority takes away -----

  predicate GivenUp(op: OperationRow, after: OperationRow) {
    after == if op.state.MAY_HAVE_BEEN_DISPATCHED?
             then op.(state := JournalState.UNKNOWN, uncertainty := Some(AUTHORITY_ROTATED),
                      ticket := if op.ticket.None? then None else Some(op.ticket.value.(state := TICKET_UNKNOWN)))
             else op
  }

  /** Every dispatched operation is uncertain and off the queue; effects, receipts and all other rows are as before. */
  ghost predicate JournalAbandoned(j: Journal, k: Journal) {
    && k.operations.Keys == j.operations.Keys && k.effects == j.effects && k.receipts == j.receipts
    && (forall id :: id in j.operations ==> GivenUp(j.operations[id], k.operations[id]))
    && (forall id :: id in k.queue <==> id in j.queue && !(id in k.operations && k.operations[id].state.UNKNOWN?))
    && (forall id :: id in k.queue ==> k.queue[id] == j.queue[id])
  }

  /** Everything in flight is uncertain and the queue is empty; sessions and all other rows are as before. */
  ghost predicate RuntimeAbandoned(r: Runtime, q: Runtime) {
    && q.operations.Keys == r.operations.Keys && q.sessions == r.sessions && q.queue == {}
    && forall id :: id in r.operations ==>
         q.operations[id] == if r.operations[id].status.ADMITTED? || r.operations[id].status.EXECUTING?
                             then r.operations[id].(status := RuntimeStatus.UNKNOWN) else r.operations[id]
  }

  lemma RotationAbandons(db: Database, step: Step)
    requires RuntimeInv(db.runtime) && RotatesAuthority(step)
    ensures JournalAbandoned(db.journal, Apply(db, step).journal) && RuntimeAbandoned(db.runtime, Apply(db, step).runtime)
  {
    RuntimeTheorems.ReopenEmptiesQueue(db);
  }

  /** The current lease and its history row are revoked, every other history row and the clock are as before. */
  ghost predicate LeaseRevoked(a: Authority, b: Authority) {
    && b.clock == a.clock && b.history.Keys == a.history.Keys
    && (a.lease.None? ==> b.lease.None? && b.history == a.history)
    && (a.lease.Some? ==>
          && var g := a.lease.value.grant;
          && b.lease == Some(a.lease.value.(grant := g.(revoked := true)))
          && (forall id :: id in a.history ==>
                b.history[id] == if id == g.leaseId then a.history[id].(grant := g.(revoked := true)) else a.history[id]))
  }

  lemma RevocationOf(a: Authority)
    requires AuthorityInv(a)
    ensures LeaseRevoked(a, RevokeCurrent(a)) && RevokeCurrent(a).fence == a.fence
  {
  }

  /** With its lease revoked a host accepts no lease document and grants no runtime authority. */
  lemma RevokedGrantsNothing(a: Authority)
    requires !LeaseLive(a)
    ensures forall doc :: CheckLease(a, doc).Some?
    ensures forall instance, leaseId, epoch :: !AuthorityCurrent(a, instance, leaseId, epoch)
  {
  }

  // ----- restart -----

  /** What `open` leaves: the lease revoked, the fence closed, everything in flight uncertain. */
  lemma ReopenLeaves(db: Database)
    requires Inv(db)
    ensures var next := Apply(db, Reopen);
      && LeaseRevoked(db.authority, next.authority)
      && next.authority.fence == (if db.authority.fence.None? then None
                                  else Some(db.authority.fence.value.(state := RESTART_REQUIRED)))
      && JournalAbandoned(db.journal, next.journal) && RuntimeAbandoned(db.runtime, next.runtime)
  {
    AuthorityProofs.CounterIsMaxEpoch(db.authority);
    assert ArchiveLease(db.authority) == db.authority;
    RevocationOf(db.authority);
    RotationAbandons(db, Reopen);
  }

  // ----- bootstrap -----

  /** A bootstrap succeeds exactly with a policy in range and a generation left, and answers with its own documents. */
  lemma BootstrapsIff(a: Authority, deployment: Id, instance: Id, incarnation: Id, ttl: int, renewal: int, bootId: Id, fenceId: Id)
    requires AuthorityInv(a)
    ensures var outcome := BootstrapOutcome(a, deployment, instance, incarnation, ttl, renewal, bootId, fenceId);
      if && 5 <= ttl <= 300 && 1 <= renewal <= 100 && renewal < ttl
         && (a.fence.Some? ==> a.fence.value.authorityGeneration < MAX_INTEGER)
      then
        var holder := Holder(deployment, instance, bootId, incarnation);
        var generation := if a.fence.Some? then a.fence.value.authorityGeneration + 1 else 1;
        outcome == Say([Bootstrap(holder, fenceId, ttl, renewal)],
                       BootReply(BootDocument(holder, generation), FenceDocument(fenceId, holder, generation, generation)))
      else outcome == Fail(Invalid)
  {
    AuthorityProofs.CounterIsMaxEpoch(a);
  }

  /** What a bootstrap leaves: a closed fence of the next generation with the counter kept, and nothing of the old authority. */
  lemma BootstrapLeaves(db: Database, holder: Holder, fenceId: Id, ttl: int, renewal: int)
    requires Inv(db)
    ensures var a, next := db.authority, Apply(db, Bootstrap(holder, fenceId, ttl, renewal));
      && LeaseRevoked(a, next.authority)
      && next.authority.fence == Some(
           var generation := if a.fence.Some? then a.fence.value.authorityGeneration + 1 else 1;
           FenceRow(holder, generation, fenceId, generation, FENCE_REQUIRED,
                    if a.fence.Some? then a.fence.value.epochCounter else 0, ttl, renewal))
      && JournalAbandoned(db.journal, next.journal) && RuntimeAbandoned(db.runtime, next.runtime)
  {
    AuthorityProofs.CounterIsMaxEpoch(db.authority);
    RevocationOf(db.authority);
    RotationAbandons(db, Bootstrap(holder, fenceId, ttl, renewal));
  }

  // ----- host fence -----

  /** A host fence opens exactly for the boot document on record that no restart has closed; otherwise the reason is told. */
  lemma HostFenceAnswers(a: Authority, boot: BootDocument)
    requires AuthorityInv(a)
    ensures var outcome := HostFenceOutcome(a, boot);
      && (outcome.result.Ok? <==>
            && a.fence.Some? && !a.fence.value.state.RESTART_REQUIRED?
            && boot == BootDocument(a.fence.value.holder, a.fence.value.authorityGeneration))
      && (outcome.result.Ok? ==>
            var row := a.fence.value;
            outcome == Say([ReadyFence], FenceReply(FenceDocument(row.fenceId, row.holder, row.authorityGeneration,
                                                                  row.authorityGeneration))))
      && (outcome.result.Err? ==> outcome == Fail(
            if !InPositiveRange(boot.authorityGeneration) then Invalid
            else if a.fence.None? || boot == BootDocument(a.fence.value.holder, a.fence.value.authorityGeneration) then HostNotReady
            else Stale(BootSubject)))
  {
  }

  /** An opened fence is READY and otherwise as it was, like everything else. */
  lemma HostFenceLeaves(db: Database)
    requires db.authority.fence.Some?
    ensures Apply(db, ReadyFence)
         == db.(authority := db.authority.(fence := Some(db.authority.fence.value.(state := READY))))
  {
  }

  // ----- acquire -----

  /** Why an acquisition is refused, when its lease id is fresh. */
  lemma AcquireRefusals(a: Authority, boot: BootDocument, fence: FenceDocument, leaseId: Id)
    requires AuthorityInv(a) && leaseId !in a.history && AcquireOutcome(a, boot, fence, leaseId).result.Err?
    ensures AcquireOutcome(a, boot, fence, leaseId) == Fail(
      if !ValidBoot(boot) || !ValidFence(fence) then Invalid
      else if boot.holder != fence.holder || boot.authorityGeneration != fence.authorityGeneration then Stale(BootSubject)
      else if a.fence.None? || !a.fence.value.state.READY? then HostNotReady
      else if fence != FenceDocument(a.fence.value.fenceId, a.fence.value.holder, a.fence.value.authorityGeneration,
                                     a.fence.value.authorityGeneration) then Stale(FenceSubject)
      else Invalid)
  {
    AuthorityProofs.CounterIsMaxEpoch(a);
    assert ArchiveLease(a) == a;
    assert EpochCounter(a) + 1 !in Epochs(a.history);
  }

  /** The grant of an acquisition: next epoch, the fence's holder and policy, from the clock of the moment. */
  predicate NewGrant(g: Grant, f: FenceRow, clock: int, leaseId: Id) {
    && g.leaseId == leaseId && g.epoch == f.epochCounter + 1 && g.holder == f.holder && g.fenceId == f.fenceId
    && g.ttl == f.ttl && g.renewal == f.renewal && g.renewSequence == 0 && !g.revoked
    && g.issuedTick == clock && g.expiresTick == clock + f.ttl
    && g.issuedAt == TimestampForTick(clock) && g.expiresAt == TimestampForTick(clock + f.ttl)
  }

  /** The new lease stands in both tables, every older history row is as before or revoked, the fence only counts on. */
  ghost predicate LeaseReplaced(a: Authority, b: Authority, leaseId: Id) {
    && a.fence.Some? && b.lease.Some? && leaseId !in a.history && b.clock == a.clock
    && var row := b.lease.value;
    && NewGrant(row.grant, a.fence.value, a.clock, leaseId) && row.token == FIXTURE_TOKEN
    && b.fence == Some(a.fence.value.(epochCounter := row.grant.epoch))
    && b.history.Keys == a.history.Keys + {leaseId}
    && b.history[leaseId] == HistoryRow(row.grant, TokenDigest(FIXTURE_TOKEN))
    && forall id :: id in a.history ==>
         b.history[id] == if a.lease.Some? && id == a.lease.value.grant.leaseId
                          then a.history[id].(grant := a.history[id].grant.(revoked := true)) else a.history[id]
  }

  lemma AcquiredAuthority(a: Authority, boot: BootDocument, fence: FenceDocument, leaseId: Id)
    requires AuthorityInv(a) && a.fence.Some? && leaseId !in a.history
    requires boot.holder == a.fence.value.holder && fence.fenceId == a.fence.value.fenceId
    ensures LeaseReplaced(a, AcquireAuthority(a, boot, fence, leaseId), leaseId)
  {
    AuthorityProofs.CounterIsMaxEpoch(a);
    assert ArchiveLease(a) == a;
  }

  lemma AcquireCommit(a: Authority, boot: BootDocument, fence: FenceDocument, leaseId: Id)
    requires AuthorityInv(a) && AcquireOutcome(a, boot, fence, leaseId).result.Ok?
    ensures AcquireOutcome(a, boot, fence, leaseId).steps == [AcquireLease(boot, fence, leaseId)]
    ensures LeaseReplaced(a, AcquireAuthority(a, boot, fence, leaseId), leaseId)
  {
    HandlerConditions.AcquiresIff(a, boot, fence, leaseId);
    AcquiredAuthority(a, boot, fence, leaseId);
  }

  lemma AcquireApplied(db: Database, boot: BootDocument, fence: FenceDocument, leaseId: Id)
    requires AuthorityInv(db.authority) && AcquireOutcome(db.authority, boot, fence, leaseId).result.Ok?
    ensures ApplyAll(db, AcquireOutcome(db.authority, boot, fence, leaseId).steps) == Apply(db, AcquireLease(boot, fence, leaseId))
    ensures LeaseReplaced(db.authority, Apply(db, AcquireLease(boot, fence, leaseId)).authority, leaseId)
  {
    AcquireCommit(db.authority, boot, fence, leaseId);
    RunsOne(db, AcquireLease(boot, fence, leaseId));
  }

  /** What an acquisition leaves: the new lease in both tables, the old one revoked, everything in flight uncertain. */
  lemma AcquireLeaves(db: Database, boot: BootDocument, fence: FenceDocument, leaseId: Id)
    requires Inv(db) && AcquireOutcome(db.authority, boot, fence, leaseId).result.Ok?
    ensures var next := ApplyAll(db, AcquireOutcome(db.authority, boot, fence, leaseId).steps);
      && LeaseReplaced(db.authority, next.authority, leaseId)
      && JournalAbandoned(db.journal, next.journal) && RuntimeAbandoned(db.runtime, next.runtime)
  {
    AcquireApplied(db, boot, fence, leaseId);
    RotationAbandons(db, AcquireLease(boot, fence, leaseId));
  }

  // ----- renew -----

  /** Why a renewal is refused. */
  lemma RenewRefusals(a: Authority, doc: LeaseDocument, sequence: int)
    requires AuthorityInv(a) && RenewOutcome(a, doc, sequence).result.Err?
    ensures RenewOutcome(a, doc, sequence) == Fail(
      if sequence < 1 || !ValidLeaseDocument(doc) then Invalid
      else if a.lease.None? then HostNotReady
      else if a.lease.value.grant.revoked then Stale(RevokedLeaseSubject)
      else if HandlerConditions.Presents(a, doc) then Conflict
      else Stale(LeaseSubject))
  {
    LeaseRefusals(a, doc);
    HandlerConditions.AcceptedIff(a, doc);
  }

  /** One interval later, under the next sequence number. */
  function Renewed(g: Grant): Grant {
    g.(expiresTick := g.expiresTick + g.renewal, expiresAt := TimestampForTick(g.expiresTick + g.renewal),
       renewSequence := g.renewSequence + 1)
  }

  /** The authority one renewal later. */
  function RenewedFrom(a: Authority): Authority
    requires a.lease.Some? && a.lease.value.grant.leaseId in a.history
  {
    var lease := a.lease.value;
    a.(clock := a.clock + lease.grant.renewal, lease := Some(lease.(grant := Renewed(lease.grant))),
       history := a.history[lease.grant.leaseId := a.history[lease.grant.leaseId].(grant := Renewed(lease.grant))])
  }

  lemma RenewedAuthority(a: Authority)
    requires AuthorityInv(a) && a.lease.Some?
    ensures a.lease.value.grant.leaseId in a.history
    ensures RenewAuthority(a, a.lease.value.grant.leaseId, a.lease.value.grant.renewSequence + 1) == RenewedFrom(a)
    ensures SaturatingAdd(RenewedClock(a), a.lease.value.grant.ttl) == Renewed(a.lease.value.grant).expiresTick
  {
    AuthorityTheorems.LeaseArithmetic(a);
  }

  lemma RenewApplied(db: Database, leaseId: Id, sequence: int)
    ensures ApplyAll(db, [RenewLease(leaseId, sequence)]) == db.(authority := RenewAuthority(db.authority, leaseId, sequence))
  {
    RunsOne(db, RenewLease(leaseId, sequence));
  }

  /** What a renewal leaves: clock, lease row and history row one interval on, and nothing else changed. */
  lemma RenewLeaves(db: Database, doc: LeaseDocument, sequence: int)
    requires AuthorityInv(db.authority) && RenewOutcome(db.authority, doc, sequence).result.Ok?
    ensures LeaseLive(db.authority) && db.authority.lease.value.grant.leaseId in db.authority.history
    ensures var outcome := RenewOutcome(db.authority, doc, sequence);
      && ApplyAll(db, outcome.steps) == db.(authority := RenewedFrom(db.authority))
      && outcome.result == Ok(LeaseReply(doc.(expiresAt := Renewed(db.authority.lease.value.grant).expiresAt)))
  {
    HandlerConditions.RenewsIff(db, doc, sequence);
    RenewedAuthority(db.authority);
    RenewApplied(db, doc.leaseId, sequence);
  }

  // ----- revoke -----

  /** A revocation succeeds exactly with the live lease's document. */
  lemma RevokesIff(a: Authority, doc: LeaseDocument)
    requires AuthorityInv(a)
    ensures RevokeOutcome(a, doc)
         == if HandlerConditions.Presents(a, doc) then Say([RevokeLease(doc.leaseId, doc.epoch)], Answer(LEASE_REVOKED))
            else Fail(CheckLease(a, doc).value)
  {
    HandlerConditions.AcceptedIff(a, doc);
  }

  /** What a revocation leaves: the lease revoked in both tables and nothing else; no document is accepted any more. */
  lemma RevokeLeaves(db: Database, doc: LeaseDocument)
    requires AuthorityInv(db.authority) && RevokeOutcome(db.authority, doc).result.Ok?
    ensures var outcome := RevokeOutcome(db.authority, doc);
      var next := ApplyAll(db, outcome.steps);
      && outcome.result == Ok(Answer(LEASE_REVOKED))
      && LeaseRevoked(db.authority, next.authority) && next == db.(authority := next.authority)
      && next.authority.fence == db.authority.fence && !LeaseLive(next.authority)
      && forall other :: CheckLease(next.authority, other).Some?
  {
    RevokesIff(db.authority, doc);
    RunsOne(db, RevokeLease(doc.leaseId, doc.epoch));
    RevokeIsCurrent(db.authority, doc.leaseId, doc.epoch);
    RevocationOf(db.authority);
    RevokedGrantsNothing(RevokeCurrent(db.authority));
  }

  lemma RevokeIsCurrent(a: Authority, leaseId: Id, epoch: int)
    requires AuthorityInv(a) && LeaseLive(a) && a.lease.value.grant.leaseId == leaseId && a.lease.value.grant.epoch == epoch
    ensures RevokeAuthority(a, leaseId, epoch) == RevokeCurrent(a) && !LeaseLive(RevokeCurrent(a))
  {
  }
}
