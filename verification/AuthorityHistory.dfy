/**
 What never goes backwards in fencing and leases: the clock, the authority
 generation, the epoch counter and every lease-history row.
 */
module AuthorityHistory {
  import opened Wrappers
  import opened Identity
  import opened FixtureClock
  import opened HostRecords
  import opened HostCommits
  import opened HostInvariants
  import opened HostRuns
  import AuthorityProofs

  /** One grant as it ages: identity fixed, deadline only extended, final once revoked. */
  ghost predicate GrantAges(g: Grant, h: Grant) {
    && h.leaseId == g.leaseId && h.epoch == g.epoch && h.holder == g.holder && h.fenceId == g.fenceId
    && h.issuedAt == g.issuedAt && h.issuedTick == g.issuedTick && h.ttl == g.ttl && h.renewal == g.renewal
    && g.expiresTick <= h.expiresTick && g.renewSequence <= h.renewSequence
    && (g.revoked ==> h == g)
  }

  ghost predicate HistoryGrows(h: map<Id, HistoryRow>, k: map<Id, HistoryRow>) {
    forall id :: id in h ==> id in k && GrantAges(h[id].grant, k[id].grant)
  }

  ghost predicate FenceGrows(f: Option<FenceRow>, g: Option<FenceRow>) {
    f.Some? ==> g.Some? && f.value.authorityGeneration <= g.value.authorityGeneration
                && f.value.epochCounter <= g.value.epochCounter
  }

  ghost predicate AuthorityGrows(a: Authority, b: Authority) {
    && a.clock <= b.clock && FenceGrows(a.fence, b.fence)
    && (a.lease.Some? ==> b.lease.Some? && a.lease.value.grant.epoch <= b.lease.value.grant.epoch)
    && HistoryGrows(a.history, b.history)
  }

  lemma GrowsReflexive(a: Authority)
    ensures AuthorityGrows(a, a)
  {
  }

  lemma HistoryGrowsTransitive(h: map<Id, HistoryRow>, k: map<Id, HistoryRow>, l: map<Id, HistoryRow>)
    requires HistoryGrows(h, k) && HistoryGrows(k, l)
    ensures HistoryGrows(h, l)
  {
    forall id | id in h ensures id in l && GrantAges(h[id].grant, l[id].grant) {
      assert GrantAges(h[id].grant, k[id].grant) && GrantAges(k[id].grant, l[id].grant);
    }
  }

  lemma RevokeCurrentGrows(a: Authority)
    requires AuthorityInv(a)
    ensures HistoryGrows(a.history, RevokeCurrent(a).history)
  {
  }

  lemma RotatedGrows(a: Authority, step: Step)
    requires AuthorityInv(a) && RotatesAuthority(step)
    requires step.AcquireLease? ==> a.fence.Some? && step.leaseId !in a.history
    ensures AuthorityGrows(a, Apply(Database(a, EmptyDatabase.journal, EmptyDatabase.runtime), step).authority)
  {
    AuthorityProofs.CounterIsMaxEpoch(a);
    assert ArchiveLease(a) == a;
    RevokeCurrentGrows(a);
    if step.AcquireLease? {
      var b := AcquireAuthority(a, step.boot, step.fence, step.leaseId);
      forall id | id in a.history ensures id in b.history && GrantAges(a.history[id].grant, b.history[id].grant) {
        assert b.history[id] == RevokeCurrent(a).history[id];
      }
    }
  }

  lemma RenewGrows(a: Authority, leaseId: Id, sequence: int)
    requires AuthorityInv(a) && LeaseLive(a) && a.lease.value.grant.leaseId == leaseId
    requires sequence == a.lease.value.grant.renewSequence + 1
    requires a.lease.value.grant.expiresTick < CLOCK_LIMIT
    ensures AuthorityGrows(a, RenewAuthority(a, leaseId, sequence))
    ensures RenewAuthority(a, leaseId, sequence).lease.value.grant.expiresTick > a.lease.value.grant.expiresTick
  {
    AuthorityProofs.RenewedTicks(a);
  }

  /** A renewal is only enabled while the deadline is still a printable tick. */
  lemma RenewableBelowLimit(a: Authority)
    requires AuthorityInv(a) && a.lease.Some? && ValidTimestamp(a.lease.value.grant.expiresAt)
    ensures a.lease.value.grant.expiresTick < CLOCK_LIMIT
  {
    TimestampValidBelowLimit(a.lease.value.grant.expiresTick);
  }

  lemma StepGrows(db: Database, step: Step)
    requires AuthorityInv(db.authority) && Enabled(db, step)
    ensures AuthorityGrows(db.authority, Apply(db, step).authority)
  {
    if RotatesAuthority(step) { RotatedGrows(db.authority, step); }
    else if step.RenewLease? {
      RenewableBelowLimit(db.authority);
      RenewGrows(db.authority, step.leaseId, step.sequence);
    }
    else if step.RevokeLease? {
      AuthorityProofs.RevokeKeeps(db.authority, step.leaseId, step.epoch);
      RevokeCurrentGrows(db.authority);
    }
  }

  /** Over any run the clock, generation, epoch counter and history only move forward. */
  lemma {:induction false} RunGrows(db: Database, steps: seq<Step>)
    requires Inv(db) && Runs(db, steps)
    ensures AuthorityGrows(db.authority, ApplyAll(db, steps).authority)
    decreases |steps|
  {
    if steps == [] {
      GrowsReflexive(db.authority);
    } else {
      var init := steps[..|steps| - 1];
      RunGrows(db, init);
      RunKeeps(db, init);
      StepGrows(ApplyAll(db, init), steps[|steps| - 1]);
      HistoryGrowsTransitive(db.authority.history, ApplyAll(db, init).authority.history, ApplyAll(db, steps).authority.history);
    }
  }
}
