/** The fencing and lease handlers, statement by statement, against their specification. */
module LeaseMethods {
  import opened Wrappers
  import opened Identity
  import opened FixtureClock
  import opened HostRecords
  import opened HostCommits
  import opened HostReplies
  import opened LeaseHandlers
  import opened HostStore

  method Bootstrap(host: DurableHost, deployment: Id, instance: Id, incarnation: Id,
                   ttl: int, renewal: int, bootId: Id, fenceId: Id)
    returns (result: Result<Reply, FixtureError>, action: ResponseAction)
    modifies host
    ensures host.Did(old(host.Tables()), old(host.committed),
                     BootstrapOutcome(old(host.Tables()).authority, deployment, instance, incarnation,
                                      ttl, renewal, bootId, fenceId),
                     result, action)
  {
    action := Send;
    if !ValidPolicy(ttl, renewal) { return Err(Invalid), action; }
    var generation := 1;
    if host.fence.Some? {
      generation := host.fence.value.authorityGeneration;
      if !(1 <= generation < MAX_INTEGER) { return Err(Invalid), action; }
      generation := generation + 1;
    }
    var holder := Holder(deployment, instance, bootId, incarnation);
    var tx := host.Tables();
    var counter := if tx.authority.fence.Some? then tx.authority.fence.value.epochCounter else 0;
    counter := Larger(counter, MaxEpoch(tx.authority.history));
    if !InRange(counter) { return Err(Invalid), action; }
    tx := tx.(authority := RevokeHistoryOfLease(tx.authority));
    tx := tx.(authority := RevokeLeaseRow(tx.authority));
    tx := tx.(runtime := AbandonRuntime(tx.runtime));
    tx := tx.(runtime := DropRuntimeQueue(tx.runtime));
    tx := tx.(journal := AbandonOperations(tx.journal));
    tx := tx.(journal := DropQueue(tx.journal));
    tx := tx.(authority := tx.authority.(fence := Some(FenceRow(
      holder, generation, fenceId, generation, FENCE_REQUIRED, counter, ttl, renewal))));
    ApplyOne(host.Tables(), Step.Bootstrap(holder, fenceId, ttl, renewal));
    host.Commit(tx, Step.Bootstrap(holder, fenceId, ttl, renewal));
    result := Ok(BootReply(BootDocument(holder, generation), FenceDocument(fenceId, holder, generation, generation)));
  }

  method HostFence(host: DurableHost, boot: BootDocument)
    returns (result: Result<Reply, FixtureError>, action: ResponseAction)
    modifies host
    ensures host.Did(old(host.Tables()), old(host.committed),
                     HostFenceOutcome(old(host.Tables()).authority, boot), result, action)
  {
    action := Send;
    if !ValidBoot(boot) { return Err(Invalid), action; }
    if host.fence.None? { return Err(HostNotReady), action; }
    var row := host.fence.value;
    if boot.holder != row.holder || boot.authorityGeneration != row.authorityGeneration {
      return Err(Stale(BootSubject)), action;
    }
    if !row.state.FENCE_REQUIRED? && !row.state.READY? { return Err(HostNotReady), action; }
    ApplyOne(host.Tables(), ReadyFence);
    host.fence := Some(row.(state := READY));
    host.committed := host.committed + [ReadyFence];
    var fence := host.fence.value;
    result := Ok(FenceReply(FenceDocument(fence.fenceId, boot.holder, boot.authorityGeneration, fence.fenceGeneration)));
  }

  method Acquire(host: DurableHost, boot: BootDocument, fence: FenceDocument, leaseId: Id)
    returns (result: Result<Reply, FixtureError>, action: ResponseAction)
    modifies host
    ensures host.Did(old(host.Tables()), old(host.committed),
                     AcquireOutcome(old(host.Tables()).authority, boot, fence, leaseId), result, action)
  {
    action := Send;
    var refusal := CheckFencePair(host.Tables().authority, boot, fence);
    if refusal.Some? { return Err(refusal.value), action; }
    var tx := host.Tables();
    if tx.authority.fence.None? { return Err(HostNotReady), action; }
    var row := tx.authority.fence.value;
    if !row.state.READY? { return Err(HostNotReady), action; }
    if !ValidPolicy(row.ttl, row.renewal) { return Err(Invalid), action; }
    var counter := Larger(row.epochCounter, MaxEpoch(tx.authority.history));
    if !(0 <= counter < MAX_INTEGER) { return Err(Invalid), action; }
    var epoch := counter + 1;
    var issuedTick := tx.authority.clock;
    var expiresTick := SaturatingAdd(issuedTick, row.ttl);
    var grant := Grant(leaseId, epoch, boot.holder, fence.fenceId, TimestampForTick(issuedTick),
                       TimestampForTick(expiresTick), issuedTick, expiresTick, row.ttl, row.renewal, 0, false);
    tx := tx.(authority := ArchiveLease(tx.authority));
    tx := tx.(authority := RevokeHistoryOfLease(tx.authority));
    tx := tx.(authority := RevokeLeaseRow(tx.authority));
    tx := tx.(runtime := AbandonRuntime(tx.runtime));
    tx := tx.(runtime := DropRuntimeQueue(tx.runtime));
    tx := tx.(journal := AbandonOperations(tx.journal));
    tx := tx.(journal := DropQueue(tx.journal));
    tx := tx.(authority := tx.authority.(fence := Some(row.(epochCounter := epoch))));
    SameKeys(host.Tables().authority);
    if leaseId in tx.authority.history || epoch in Epochs(tx.authority.history) { return Err(SqlError), action; }
    tx := tx.(authority := tx.authority.(
      history := tx.authority.history[leaseId := HistoryRow(grant, TokenDigest(FIXTURE_TOKEN))]));
    tx := tx.(authority := tx.authority.(lease := Some(LeaseRow(grant, FIXTURE_TOKEN))));
    ApplyOne(host.Tables(), AcquireLease(boot, fence, leaseId));
    host.Commit(tx, AcquireLease(boot, fence, leaseId));
    result := Ok(LeaseReply(GrantDocument(grant, FIXTURE_TOKEN, boot.authorityGeneration)));
  }

  /** Revoking a history row changes neither its key nor its epoch. */
  lemma SameKeys(a: Authority)
    ensures var archived := ArchiveLease(a);
      && RevokeHistoryOfLease(archived).history.Keys == archived.history.Keys
      && Epochs(RevokeHistoryOfLease(archived).history) == Epochs(archived.history)
  {
    var h, k := ArchiveLease(a).history, RevokeHistoryOfLease(ArchiveLease(a)).history;
    forall e | e in Epochs(h) ensures e in Epochs(k) {
      var id :| id in h && h[id].grant.epoch == e;
      assert k[id].grant.epoch == e;
    }
    forall e | e in Epochs(k) ensures e in Epochs(h) {
      var id :| id in k && k[id].grant.epoch == e;
      assert h[id].grant.epoch == e;
    }
  }

  method Renew(host: DurableHost, doc: LeaseDocument, sequence: int)
    returns (result: Result<Reply, FixtureError>, action: ResponseAction)
    modifies host
    ensures host.Did(old(host.Tables()), old(host.committed),
                     RenewOutcome(old(host.Tables()).authority, doc, sequence), result, action)
  {
    action := Send;
    if sequence < 1 { return Err(Invalid), action; }
    var refusal := CheckLease(host.Tables().authority, doc);
    if refusal.Some? { return Err(refusal.value), action; }
    if host.lease.None? { return Err(Conflict), action; }
    var grant := host.lease.value.grant;
    if sequence != SaturatingAdd(grant.renewSequence, 1) { return Err(Conflict), action; }
    var now := Larger(SaturatingAdd(host.clock, grant.renewal), SaturatingSub(grant.expiresTick, grant.ttl));
    var expires := SaturatingAdd(now, grant.ttl);
    var tx := host.Tables();
    tx := tx.(authority := tx.authority.(clock := now));
    if grant.leaseId == doc.leaseId {
      tx := tx.(authority := tx.authority.(lease := Some(host.lease.value.(grant := RenewGrant(grant, expires, sequence)))));
    }
    if doc.leaseId !in tx.authority.history { return Err(Conflict), action; }
    var row := tx.authority.history[doc.leaseId];
    tx := tx.(authority := tx.authority.(
      history := tx.authority.history[doc.leaseId := row.(grant := RenewGrant(row.grant, expires, sequence))]));
    ApplyOne(host.Tables(), RenewLease(doc.leaseId, sequence));
    host.Commit(tx, RenewLease(doc.leaseId, sequence));
    result := Ok(LeaseReply(doc.(expiresAt := TimestampForTick(expires))));
  }

  method Revoke(host: DurableHost, doc: LeaseDocument)
    returns (result: Result<Reply, FixtureError>, action: ResponseAction)
    modifies host
    ensures host.Did(old(host.Tables()), old(host.committed),
                     RevokeOutcome(old(host.Tables()).authority, doc), result, action)
  {
    action := Send;
    var refusal := CheckLease(host.Tables().authority, doc);
    if refusal.Some? { return Err(refusal.value), action; }
    ApplyOne(host.Tables(), RevokeLease(doc.leaseId, doc.epoch));
    RevokeRows(host, doc.leaseId, doc.epoch);
    result := Ok(Answer(LEASE_REVOKED));
  }

  /** The two updates shared by `lease_revoke` and the release of a runtime lease, in one transaction. */
  method RevokeRows(host: DurableHost, leaseId: Id, epoch: int)
    modifies host
    ensures host.Tables() == Apply(old(host.Tables()), RevokeLease(leaseId, epoch))
    ensures host.committed == old(host.committed) + [RevokeLease(leaseId, epoch)]
  {
    var tx := host.Tables();
    if tx.authority.lease.Some? {
      var row := tx.authority.lease.value;
      if row.grant.leaseId == leaseId && row.grant.epoch == epoch {
        tx := tx.(authority := tx.authority.(lease := Some(row.(grant := row.grant.(revoked := true)))));
      }
    }
    if leaseId in tx.authority.history && tx.authority.history[leaseId].grant.epoch == epoch {
      tx := tx.(authority := tx.authority.(history := RevokeRow(tx.authority.history, leaseId)));
    }
    host.Commit(tx, RevokeLease(leaseId, epoch));
  }
}
