/** Every enabled commit keeps the fencing and lease invariant. */
module AuthorityProofs {
  import opened Identity
  import opened FixtureClock
  import opened HostRecords
  import opened HostCommits
  import opened HostInvariants

  /** The history never runs ahead of the fence: the counter is the largest epoch ever granted. */
  lemma CounterIsMaxEpoch(a: Authority)
    requires AuthorityInv(a)
    ensures EpochCounter(a) == if a.fence.Some? then a.fence.value.epochCounter else 0
    ensures a.fence.Some? ==> MaxEpoch(a.history) == a.fence.value.epochCounter
  {
    if a.lease.Some? {
      var g := a.lease.value.grant;
      assert HistoryRowInv(a, g.leaseId);
      assert MaxEpoch(a.history) in Epochs(a.history);
      var id :| id in a.history && a.history[id].grant.epoch == MaxEpoch(a.history);
      assert HistoryRowInv(a, id);
    }
  }

  lemma RevokeCurrentKeeps(a: Authority)
    requires AuthorityInv(a)
    ensures AuthorityInv(RevokeCurrent(a))
    ensures !LeaseLive(RevokeCurrent(a))
    ensures RevokeCurrent(a).history.Keys == a.history.Keys
  {
    var b := RevokeCurrent(a);
    if a.lease.Some? {
      assert LeaseInv(b);
      forall id | id in b.history ensures HistoryRowInv(b, id) { assert HistoryRowInv(a, id); }
      SameEpochs(a.history, b.history);
    }
  }

  lemma SameEpochs(h: map<Id, HistoryRow>, h': map<Id, HistoryRow>)
    requires EpochsUnique(h) && h.Keys == h'.Keys
    requires forall id :: id in h ==> h'[id].grant.epoch == h[id].grant.epoch
    ensures EpochsUnique(h')
  {
    forall i, j | i in h' && j in h' && h'[i].grant.epoch == h'[j].grant.epoch ensures i == j {
      assert i in h && j in h;
    }
  }

  lemma ReopenKeeps(a: Authority)
    requires AuthorityInv(a)
    ensures AuthorityInv(ReopenAuthority(a))
    ensures !LeaseLive(ReopenAuthority(a))
    ensures ReopenAuthority(a).fence.Some? ==> ReopenAuthority(a).fence.value.state.RESTART_REQUIRED?
  {
    RevokeCurrentKeeps(a);
    CounterIsMaxEpoch(a);
    assert ArchiveLease(a) == a;
    var m, b := RevokeCurrent(a), ReopenAuthority(a);
    if a.lease.Some? {
      forall id | id in b.history ensures HistoryRowInv(b, id) { assert HistoryRowInv(m, id); }
    }
  }

  lemma BootstrapKeeps(a: Authority, holder: Holder, fenceId: Id, ttl: int, renewal: int)
    requires AuthorityInv(a)
    requires ValidPolicy(ttl, renewal) && InPositiveRange(NextGeneration(a)) && InRange(EpochCounter(a))
    ensures AuthorityInv(BootstrapAuthority(a, holder, fenceId, ttl, renewal))
    ensures !LeaseLive(BootstrapAuthority(a, holder, fenceId, ttl, renewal))
  {
    RevokeCurrentKeeps(a);
    CounterIsMaxEpoch(a);
    var m, b := RevokeCurrent(a), BootstrapAuthority(a, holder, fenceId, ttl, renewal);
    if a.lease.Some? {
      forall id | id in b.history ensures HistoryRowInv(b, id) { assert HistoryRowInv(m, id); }
    }
  }

  lemma ReadyKeeps(a: Authority)
    requires AuthorityInv(a) && a.fence.Some? && !a.fence.value.state.RESTART_REQUIRED?
    ensures AuthorityInv(ReadyAuthority(a))
  {
    var b := ReadyAuthority(a);
    if a.lease.Some? {
      forall id | id in b.history ensures HistoryRowInv(b, id) { assert HistoryRowInv(a, id); }
    }
  }

  lemma AcquiredLease(a: Authority, boot: BootDocument, fence: FenceDocument, leaseId: Id)
    requires AuthorityInv(a) && a.fence.Some? && a.fence.value.state.READY?
    requires boot.holder == a.fence.value.holder && fence.fenceId == a.fence.value.fenceId
    ensures LeaseInv(AcquireAuthority(a, boot, fence, leaseId))
  {
  }

  lemma AcquiredHistory(a: Authority, boot: BootDocument, fence: FenceDocument, leaseId: Id, id: Id)
    requires AuthorityInv(a) && a.fence.Some? && leaseId !in a.history
    requires EpochCounter(a) == a.fence.value.epochCounter
    requires id in AcquireAuthority(a, boot, fence, leaseId).history
    ensures HistoryRowInv(AcquireAuthority(a, boot, fence, leaseId), id)
    ensures id != leaseId ==> id in a.history && AcquireAuthority(a, boot, fence, leaseId).history[id].grant.epoch == a.history[id].grant.epoch
    ensures AcquireAuthority(a, boot, fence, leaseId).history[id].grant.epoch > a.fence.value.epochCounter <==> id == leaseId
  {
    assert ArchiveLease(a) == a;
    if id != leaseId { assert HistoryRowInv(a, id); }
  }

  lemma AcquireKeeps(a: Authority, boot: BootDocument, fence: FenceDocument, leaseId: Id)
    requires AuthorityInv(a)
    requires a.fence.Some? && a.fence.value.state.READY? && leaseId !in a.history
    requires boot.holder == a.fence.value.holder && fence.fenceId == a.fence.value.fenceId
    requires EpochCounter(a) < MAX_INTEGER
    ensures AuthorityInv(AcquireAuthority(a, boot, fence, leaseId))
    ensures AcquireAuthority(a, boot, fence, leaseId).fence.value.epochCounter == a.fence.value.epochCounter + 1
  {
    var b := AcquireAuthority(a, boot, fence, leaseId);
    CounterIsMaxEpoch(a);
    AcquiredLease(a, boot, fence, leaseId);
    forall id | id in b.history ensures HistoryRowInv(b, id) { AcquiredHistory(a, boot, fence, leaseId, id); }
    forall i, j | i in b.history && j in b.history && b.history[i].grant.epoch == b.history[j].grant.epoch ensures i == j {
      AcquiredHistory(a, boot, fence, leaseId, i);
      AcquiredHistory(a, boot, fence, leaseId, j);
    }
  }

  lemma RenewedTicks(a: Authority)
    requires AuthorityInv(a) && LeaseLive(a) && a.lease.value.grant.expiresTick < CLOCK_LIMIT
    ensures RenewedClock(a) == a.clock + a.lease.value.grant.renewal < CLOCK_LIMIT
    ensures SaturatingAdd(RenewedClock(a), a.lease.value.grant.ttl)
         == a.clock + a.lease.value.grant.renewal + a.lease.value.grant.ttl
  {
  }

  lemma NextMultiple(n: int, step: int)
    ensures (n + 1) * step == n * step + step
  {
  }

  lemma AtLeastOnce(n: int, step: int)
    requires 0 <= n && 1 <= step
    ensures n <= n * step
  {
  }

  /** Each renewal costs at least one tick, so the renewal counter cannot saturate either. */
  lemma RenewalsBounded(a: Authority)
    requires AuthorityInv(a) && a.lease.Some?
    ensures 0 <= a.lease.value.grant.renewSequence <= a.clock
  {
    AtLeastOnce(a.lease.value.grant.renewSequence, a.lease.value.grant.renewal);
  }

  lemma RenewLease(a: Authority, leaseId: Id, sequence: int)
    requires AuthorityInv(a) && LeaseLive(a) && a.lease.value.grant.leaseId == leaseId
    requires sequence == a.lease.value.grant.renewSequence + 1
    requires a.lease.value.grant.expiresTick < CLOCK_LIMIT
    ensures 0 <= RenewAuthority(a, leaseId, sequence).clock < CLOCK_LIMIT
    ensures RenewAuthority(a, leaseId, sequence).clock == a.clock + a.lease.value.grant.renewal
    ensures LeaseInv(RenewAuthority(a, leaseId, sequence))
  {
    RenewedTicks(a);
    NextMultiple(a.lease.value.grant.renewSequence, a.lease.value.grant.renewal);
  }

  /** A renewal moves the clock on by exactly the renewal interval and never saturates. */
  lemma RenewKeeps(a: Authority, leaseId: Id, sequence: int)
    requires AuthorityInv(a) && LeaseLive(a) && a.lease.value.grant.leaseId == leaseId
    requires sequence == a.lease.value.grant.renewSequence + 1
    requires ValidTimestamp(a.lease.value.grant.expiresAt)
    ensures AuthorityInv(RenewAuthority(a, leaseId, sequence))
    ensures RenewAuthority(a, leaseId, sequence).clock == a.clock + a.lease.value.grant.renewal
  {
    var b := RenewAuthority(a, leaseId, sequence);
    TimestampValidBelowLimit(a.lease.value.grant.expiresTick);
    RenewLease(a, leaseId, sequence);
    forall id | id in b.history ensures HistoryRowInv(b, id) { assert HistoryRowInv(a, id); }
    SameEpochs(a.history, b.history);
  }

  lemma RevokeKeeps(a: Authority, leaseId: Id, epoch: int)
    requires AuthorityInv(a) && LeaseLive(a)
    requires a.lease.value.grant.leaseId == leaseId && a.lease.value.grant.epoch == epoch
    ensures RevokeAuthority(a, leaseId, epoch) == RevokeCurrent(a)
    ensures AuthorityInv(RevokeAuthority(a, leaseId, epoch))
  {
    RevokeCurrentKeeps(a);
  }
}
