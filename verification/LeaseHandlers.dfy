/**
 Specification of the fencing and lease handlers: which commit each request
 makes, if any, and what it answers.
 */
module LeaseHandlers {
  import opened Wrappers
  import opened Identity
  import opened FixtureClock
  import opened HostRecords
  import opened HostCommits
  import opened HostReplies

  /** `validate_current_fence`: None when the document is the current READY fence. */
  function CheckFence(a: Authority, fence: FenceDocument): Option<FixtureError> {
    if !ValidFence(fence) then Some(Invalid)
    else if a.fence.None? || !a.fence.value.state.READY? then Some(HostNotReady)
    else
      var row := a.fence.value;
      if row.fenceId != fence.fenceId || row.holder != fence.holder
         || row.authorityGeneration != fence.authorityGeneration
         || row.fenceGeneration != fence.fenceGeneration
      then Some(Stale(FenceSubject)) else None
  }

  function CheckFencePair(a: Authority, boot: BootDocument, fence: FenceDocument): Option<FixtureError> {
    if !ValidBoot(boot) || !ValidFence(fence) then Some(Invalid)
    else if boot.holder != fence.holder || boot.authorityGeneration != fence.authorityGeneration
    then Some(Stale(BootSubject))
    else CheckFence(a, fence)
  }

  /** `validate_current_fence_fields`: the two-table half of a lease check. */
  function CheckFenceFields(a: Authority, holder: Holder, generation: int, fenceId: Id): Option<FixtureError> {
    if a.fence.None? || !a.fence.value.state.READY? then Some(HostNotReady)
    else
      var row := a.fence.value;
      if holder != row.holder || generation != row.authorityGeneration || fenceId != row.fenceId
      then Some(Stale(LeaseSubject)) else None
  }

  predicate DocumentMatches(grant: Grant, token: string, doc: LeaseDocument) {
    && doc.leaseId == grant.leaseId && doc.epoch == grant.epoch && doc.holder == grant.holder
    && doc.token == token && doc.issuedAt == grant.issuedAt && doc.expiresAt == grant.expiresAt
    && doc.ttl == grant.ttl && doc.renewal == grant.renewal
  }

  /** `validate_lease`: None when the document is the live lease. */
  function CheckLease(a: Authority, doc: LeaseDocument): Option<FixtureError> {
    if !ValidLeaseDocument(doc) then Some(Invalid)
    else if a.lease.None? then Some(HostNotReady)
    else
      var grant := a.lease.value.grant;
      if !ValidPolicy(grant.ttl, grant.renewal) then Some(Invalid)
      else if grant.revoked then Some(Stale(RevokedLeaseSubject))
      else if !DocumentMatches(grant, a.lease.value.token, doc) || a.clock >= grant.expiresTick
      then Some(Stale(LeaseSubject))
      else CheckFenceFields(a, doc.holder, doc.authorityGeneration, grant.fenceId)
  }

  function BootstrapOutcome(a: Authority, deployment: Id, instance: Id, incarnation: Id,
                            ttl: int, renewal: int, bootId: Id, fenceId: Id): Outcome
  {
    if !ValidPolicy(ttl, renewal) then Fail(Invalid)
    else if a.fence.Some? && !(1 <= a.fence.value.authorityGeneration < MAX_INTEGER) then Fail(Invalid)
    else if !InRange(EpochCounter(a)) then Fail(Invalid)
    else
      var holder := Holder(deployment, instance, bootId, incarnation);
      var generation := NextGeneration(a);
      Say([Bootstrap(holder, fenceId, ttl, renewal)],
          BootReply(BootDocument(holder, generation), FenceDocument(fenceId, holder, generation, generation)))
  }

  function HostFenceOutcome(a: Authority, boot: BootDocument): Outcome {
    if !ValidBoot(boot) then Fail(Invalid)
    else if a.fence.None? then Fail(HostNotReady)
    else
      var row := a.fence.value;
      if boot.holder != row.holder || boot.authorityGeneration != row.authorityGeneration
      then Fail(Stale(BootSubject))
      else if row.state.RESTART_REQUIRED? then Fail(HostNotReady)
      else Say([ReadyFence],
               FenceReply(FenceDocument(row.fenceId, boot.holder, boot.authorityGeneration, row.fenceGeneration)))
  }

  function GrantDocument(grant: Grant, token: string, generation: int): LeaseDocument {
    LeaseDocument(grant.holder, generation, grant.leaseId, grant.epoch, token,
                  grant.issuedAt, grant.expiresAt, grant.ttl, grant.renewal)
  }

  function AcquireOutcome(a: Authority, boot: BootDocument, fence: FenceDocument, leaseId: Id): Outcome {
    var refusal := CheckFencePair(a, boot, fence);
    if refusal.Some? then Fail(refusal.value)
    else if a.fence.None? || !a.fence.value.state.READY? then Fail(HostNotReady)
    else if !ValidPolicy(a.fence.value.ttl, a.fence.value.renewal) then Fail(Invalid)
    else if !(0 <= EpochCounter(a) < MAX_INTEGER) then Fail(Invalid)
    else
      var archived := ArchiveLease(a);
      var grant := FreshGrant(a, boot, fence, leaseId);
      if leaseId in archived.history || grant.epoch in Epochs(archived.history) then Fail(SqlError)
      else Say([AcquireLease(boot, fence, leaseId)],
               LeaseReply(GrantDocument(grant, FIXTURE_TOKEN, boot.authorityGeneration)))
  }

  function RenewOutcome(a: Authority, doc: LeaseDocument, sequence: int): Outcome {
    var refusal := CheckLease(a, doc);
    if sequence < 1 then Fail(Invalid)
    else if refusal.Some? then Fail(refusal.value)
    else if a.lease.None? || sequence != SaturatingAdd(a.lease.value.grant.renewSequence, 1) then Fail(Conflict)
    else if doc.leaseId !in a.history then Fail(Conflict)
    else
      var expires := SaturatingAdd(RenewedClock(a), a.lease.value.grant.ttl);
      Say([RenewLease(doc.leaseId, sequence)], LeaseReply(doc.(expiresAt := TimestampForTick(expires))))
  }

  function RevokeOutcome(a: Authority, doc: LeaseDocument): Outcome {
    var refusal := CheckLease(a, doc);
    if refusal.Some? then Fail(refusal.value)
    else Say([RevokeLease(doc.leaseId, doc.epoch)], Answer(LEASE_REVOKED))
  }
}
