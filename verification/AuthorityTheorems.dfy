/**
 Fencing theorems over whole runs: what grants authority, how long a lease
 document is worth anything, and what has to happen after a restart before
 anything is granted again.
 */
module AuthorityTheorems {
  import opened Identity
  import opened FixtureClock
  import opened HostRecords
  import opened HostCommits
  import opened LeaseHandlers
  import opened RuntimeHandlers
  import opened HostInvariants
  import opened HostRuns
  import AuthorityProofs
  import AuthorityHistory

  /**
   The join of lease and fence that `runtime_authority_current` evaluates is
   nothing more than a check of the lease row: the fence columns and even the
   deadline follow from the row being unrevoked.
   */
  lemma JoinIsRowCheck(a: Authority, instance: Id, leaseId: Id, epoch: int)
    requires AuthorityInv(a)
    ensures AuthorityCurrent(a, instance, leaseId, epoch) <==>
      && a.lease.Some? && !a.lease.value.grant.revoked && a.lease.value.grant.holder.instance == instance
      && a.lease.value.grant.leaseId == leaseId && a.lease.value.grant.epoch == epoch
  {
  }

  /** Deadlines are exact: no saturating operation of the lease clock ever saturates. */
  lemma LeaseArithmetic(a: Authority)
    requires AuthorityInv(a) && a.lease.Some?
    ensures 0 <= a.clock < CLOCK_LIMIT
    ensures var g := a.lease.value.grant;
      && g.expiresTick == a.clock + g.ttl == g.issuedTick + g.ttl + g.renewSequence * g.renewal
      && SaturatingAdd(a.clock, g.renewal) == a.clock + g.renewal
      && SaturatingSub(g.expiresTick, g.ttl) == a.clock
      && RenewedClock(a) == a.clock + g.renewal
      && SaturatingAdd(RenewedClock(a), g.ttl) == g.expiresTick + g.renewal
      && SaturatingAdd(g.renewSequence, 1) == g.renewSequence + 1
  {
    AuthorityProofs.RenewalsBounded(a);
  }

  /** The counter is the largest epoch in history; only the current lease's row can be unrevoked. */
  lemma HistoryAgrees(a: Authority)
    requires AuthorityInv(a)
    ensures a.fence.Some? ==> a.fence.value.epochCounter == MaxEpoch(a.history)
    ensures a.lease.Some? ==> var g := a.lease.value.grant; g.leaseId in a.history && a.history[g.leaseId].grant == g
    ensures forall id :: id in a.history && !a.history[id].grant.revoked ==>
      a.lease.Some? && id == a.lease.value.grant.leaseId
  {
    AuthorityProofs.CounterIsMaxEpoch(a);
    forall id | id in a.history && !a.history[id].grant.revoked
      ensures a.lease.Some? && id == a.lease.value.grant.leaseId
    {
      assert HistoryRowInv(a, id);
    }
  }

  lemma AuthoritySafe(db: Database, steps: seq<Step>)
    requires Inv(db) && Runs(db, steps)
    ensures AuthorityInv(ApplyAll(db, steps).authority)
  {
    RunKeeps(db, steps);
  }

  // ----- how long a lease document is accepted -----

  ghost predicate ChangesLease(step: Step) { RotatesAuthority(step) || step.RenewLease? || step.RevokeLease? }

  ghost predicate Untouched(steps: seq<Step>) { forall i :: 0 <= i < |steps| ==> !ChangesLease(steps[i]) }

  /** The current lease has moved past one with this epoch and deadline. */
  ghost predicate Superseded(a: Authority, epoch: int, expires: int) {
    && a.lease.Some?
    && var g := a.lease.value.grant;
    epoch < g.epoch || (epoch == g.epoch && (expires < g.expiresTick || g.revoked))
  }

  lemma SupersededIsRejected(a: Authority, doc: LeaseDocument, expires: nat)
    requires AuthorityInv(a) && Superseded(a, doc.epoch, expires) && doc.expiresAt == TimestampForTick(expires)
    ensures CheckLease(a, doc).Some?
  {
    if CheckLease(a, doc).None? {
      TimestampInjective(expires, a.lease.value.grant.expiresTick);
    }
  }

  lemma ChangeSupersedes(db: Database, step: Step)
    requires AuthorityInv(db.authority) && LeaseLive(db.authority) && Enabled(db, step) && ChangesLease(step)
    ensures Superseded(Apply(db, step).authority, db.authority.lease.value.grant.epoch, db.authority.lease.value.grant.expiresTick)
  {
    StepSupersedes(db, step, db.authority.lease.value.grant.epoch, db.authority.lease.value.grant.expiresTick);
  }

  /** Whatever was at or behind the current lease is behind it after any change of the lease. */
  lemma StepSupersedes(db: Database, step: Step, epoch: int, expires: int)
    requires AuthorityInv(db.authority) && db.authority.lease.Some? && Enabled(db, step) && ChangesLease(step)
    requires var g := db.authority.lease.value.grant; epoch < g.epoch || (epoch == g.epoch && expires <= g.expiresTick)
    ensures Superseded(Apply(db, step).authority, epoch, expires)
  {
    var a := db.authority;
    AuthorityProofs.CounterIsMaxEpoch(a);
    assert ArchiveLease(a) == a;
    match step
    case RenewLease(leaseId, sequence) =>
      AuthorityHistory.RenewableBelowLimit(a);
      AuthorityHistory.RenewGrows(a, leaseId, sequence);
    case _ =>
  }

  /** An unrevoked lease always stands under a READY fence of the same holder and fence id. */
  lemma LiveIsReady(a: Authority)
    requires AuthorityInv(a) && LeaseLive(a)
    ensures a.fence.Some? && a.fence.value.state.READY?
    ensures a.lease.value.grant.holder == a.fence.value.holder && a.lease.value.grant.fenceId == a.fence.value.fenceId
  {
  }

  lemma ReadyChangesNothing(db: Database, step: Step)
    requires db.authority.fence.Some? && db.authority.fence.value.state.READY? && !ChangesLease(step)
    ensures Apply(db, step).authority == db.authority
  {
  }

  lemma StaysSuperseded(db: Database, step: Step, epoch: int, expires: int)
    requires AuthorityInv(db.authority) && Superseded(db.authority, epoch, expires) && Enabled(db, step)
    ensures Superseded(Apply(db, step).authority, epoch, expires)
  {
    if step.RevokeLease? || step.RenewLease? || step.AcquireLease? {
      var g := db.authority.lease.value.grant;
      if step.AcquireLease? {
        AuthorityProofs.CounterIsMaxEpoch(db.authority);
      } else {
        StepSupersedes(db, step, epoch, expires);
      }
    }
  }

  lemma UntouchedThen(steps: seq<Step>, last: Step)
    ensures Untouched(steps + [last]) <==> Untouched(steps) && !ChangesLease(last)
  {
    var more := steps + [last];
    assert more[|steps|] == last;
    assert forall i :: 0 <= i < |steps| ==> more[i] == steps[i];
  }

  /** A live authority is either still exactly what it was or superseded, depending on the commits since. */
  ghost predicate Standing(was: Authority, a: Authority, steps: seq<Step>)
    requires was.lease.Some?
  {
    var g := was.lease.value.grant;
    if Untouched(steps) then a == was else Superseded(a, g.epoch, g.expiresTick)
  }

  lemma StandingStart(a: Authority)
    requires a.lease.Some?
    ensures Standing(a, a, [])
  {
  }

  lemma StandingStep(was: Authority, db: Database, steps: seq<Step>, last: Step)
    requires LeaseLive(was) && AuthorityInv(db.authority) && Enabled(db, last) && Standing(was, db.authority, steps)
    ensures Standing(was, Apply(db, last).authority, steps + [last])
  {
    UntouchedThen(steps, last);
    if !Untouched(steps) {
      StaysSuperseded(db, last, was.lease.value.grant.epoch, was.lease.value.grant.expiresTick);
    } else if ChangesLease(last) {
      ChangeSupersedes(db, last);
    } else {
      LiveIsReady(db.authority);
      ReadyChangesNothing(db, last);
    }
  }

  lemma {:induction false} StandingRun(db: Database, steps: seq<Step>)
    requires Inv(db) && LeaseLive(db.authority) && Runs(db, steps)
    ensures Standing(db.authority, ApplyAll(db, steps).authority, steps)
    decreases |steps|
  {
    if steps != [] {
      var init, last := steps[..|steps| - 1], steps[|steps| - 1];
      StandingRun(db, init);
      AuthoritySafe(db, init);
      StandingStep(db.authority, ApplyAll(db, init), init, last);
      SplitLast(steps);
    } else {
      StandingStart(db.authority);
    }
  }

  /**
   A lease document that is accepted now is accepted later if and only if no
   restart, bootstrap, acquisition, renewal or revocation was committed in
   between; once rejected for one of these it is rejected for ever.
   */
  lemma AcceptedUntilChanged(db: Database, steps: seq<Step>, doc: LeaseDocument)
    requires Inv(db) && Runs(db, steps) && CheckLease(db.authority, doc).None?
    ensures CheckLease(ApplyAll(db, steps).authority, doc).None? <==> Untouched(steps)
  {
    StandingRun(db, steps);
    AuthoritySafe(db, steps);
    if !Untouched(steps) {
      SupersededIsRejected(ApplyAll(db, steps).authority, doc, db.authority.lease.value.grant.expiresTick);
    }
  }

  // ----- epochs and generations -----

  /** Each acquisition takes the next epoch and each bootstrap the next generation. */
  lemma StepAdvances(db: Database, step: Step)
    requires AuthorityInv(db.authority) && Enabled(db, step)
    ensures step.AcquireLease? ==>
      && db.authority.fence.Some? && Apply(db, step).authority.fence.Some? && Apply(db, step).authority.lease.Some?
      && Apply(db, step).authority.lease.value.grant.epoch == Apply(db, step).authority.fence.value.epochCounter
      && Apply(db, step).authority.fence.value.epochCounter == db.authority.fence.value.epochCounter + 1
    ensures step.Bootstrap? ==>
      && Apply(db, step).authority.fence.Some?
      && Apply(db, step).authority.fence.value.authorityGeneration
         == (if db.authority.fence.Some? then db.authority.fence.value.authorityGeneration else 0) + 1
  {
    AuthorityProofs.CounterIsMaxEpoch(db.authority);
  }

  /** Two acquisitions of one run, whatever lies between them, get strictly increasing epochs. */
  lemma EpochsIncrease(db: Database, first: Step, between: seq<Step>, second: Step)
    requires Inv(db) && Runs(db, [first] + between + [second]) && first.AcquireLease? && second.AcquireLease?
    ensures Apply(db, first).authority.lease.Some? && ApplyAll(db, [first] + between + [second]).authority.lease.Some?
    ensures Apply(db, first).authority.lease.value.grant.epoch
          < ApplyAll(db, [first] + between + [second]).authority.lease.value.grant.epoch
  {
    Between(db, first, between, second);
    StepAdvances(db, first);
    StepAdvances(ApplyAll(Apply(db, first), between), second);
  }

  /** Two bootstraps of one run get strictly increasing authority generations. */
  lemma GenerationsIncrease(db: Database, first: Step, between: seq<Step>, second: Step)
    requires Inv(db) && Runs(db, [first] + between + [second]) && first.Bootstrap? && second.Bootstrap?
    ensures Apply(db, first).authority.fence.Some? && ApplyAll(db, [first] + between + [second]).authority.fence.Some?
    ensures Apply(db, first).authority.fence.value.authorityGeneration
          < ApplyAll(db, [first] + between + [second]).authority.fence.value.authorityGeneration
  {
    Between(db, first, between, second);
    StepAdvances(db, first);
    StepAdvances(ApplyAll(Apply(db, first), between), second);
  }

  lemma Between(db: Database, first: Step, between: seq<Step>, second: Step)
    requires Inv(db) && Runs(db, [first] + between + [second])
    ensures Enabled(db, first) && Inv(ApplyAll(Apply(db, first), between))
    ensures Enabled(ApplyAll(Apply(db, first), between), second)
    ensures ApplyAll(db, [first] + between + [second]) == Apply(ApplyAll(Apply(db, first), between), second)
    ensures AuthorityHistory.AuthorityGrows(Apply(db, first).authority, ApplyAll(Apply(db, first), between).authority)
  {
    RunsThen(db, [first] + between, second);
    RunsConcat(db, [first], between);
    RunsOne(db, first);
    StepKeeps(db, first);
    RunKeeps(Apply(db, first), between);
    AuthorityHistory.RunGrows(Apply(db, first), between);
  }

  // ----- one lease over a stretch of a run -----

  ghost predicate Unbroken(steps: seq<Step>) {
    forall i :: 0 <= i < |steps| ==> !RotatesAuthority(steps[i]) && !steps[i].RevokeLease?
  }

  /** A commit that leaves a live lease behind either left it as it was or took a later epoch. */
  lemma LiveStep(db: Database, step: Step)
    requires AuthorityInv(db.authority) && db.authority.lease.Some? && Enabled(db, step)
    requires LeaseLive(Apply(db, step).authority)
    ensures RotatesAuthority(step) || step.RevokeLease? ==>
      Apply(db, step).authority.lease.value.grant.epoch > db.authority.lease.value.grant.epoch
    ensures !RotatesAuthority(step) && !step.RevokeLease? ==>
      LeaseLive(db.authority) && Apply(db, step).authority.lease.value.grant.epoch == db.authority.lease.value.grant.epoch
  {
    if step.AcquireLease? { StepAdvances(db, step); }
  }

  /** An epoch that is current and live at the end of a run was so all through it. */
  lemma {:induction false} SameEpochUnbroken(db: Database, steps: seq<Step>)
    requires Inv(db) && Runs(db, steps) && db.authority.lease.Some? && LeaseLive(ApplyAll(db, steps).authority)
    requires ApplyAll(db, steps).authority.lease.value.grant.epoch == db.authority.lease.value.grant.epoch
    ensures Unbroken(steps)
    decreases |steps|
  {
    if steps != [] {
      var init, last := steps[..|steps| - 1], steps[|steps| - 1];
      AuthoritySafe(db, init);
      AuthorityHistory.RunGrows(db, init);
      LiveStep(ApplyAll(db, init), last);
      SameEpochUnbroken(db, init);
      UnbrokenThen(init, last);
      SplitLast(steps);
    }
  }

  lemma UnbrokenThen(steps: seq<Step>, last: Step)
    requires Unbroken(steps) && !RotatesAuthority(last) && !last.RevokeLease?
    ensures Unbroken(steps + [last])
  {
  }

  lemma SameEpochSameGrant(a: Authority, b: Authority)
    requires AuthorityInv(a) && AuthorityInv(b) && AuthorityHistory.HistoryGrows(a.history, b.history)
    requires a.lease.Some? && b.lease.Some? && a.lease.value.grant.epoch == b.lease.value.grant.epoch
    ensures AuthorityHistory.GrantAges(a.lease.value.grant, b.lease.value.grant)
  {
    var id := a.lease.value.grant.leaseId;
    assert AuthorityHistory.GrantAges(a.history[id].grant, b.history[id].grant);
    assert b.history[b.lease.value.grant.leaseId].grant.epoch == b.history[id].grant.epoch;
  }

  /**
   Two points of a run at which the same epoch is current, live at the second:
   it is one grant, only aged, and between them nothing was committed that
   replaces or revokes it.
   */
  lemma OneLeaseBetween(db: Database, steps: seq<Step>, m: nat, n: nat)
    requires Inv(db) && Runs(db, steps) && m <= n <= |steps|
    requires StateAt(db, steps, m).authority.lease.Some? && LeaseLive(StateAt(db, steps, n).authority)
    requires StateAt(db, steps, m).authority.lease.value.grant.epoch == StateAt(db, steps, n).authority.lease.value.grant.epoch
    ensures AuthorityHistory.GrantAges(StateAt(db, steps, m).authority.lease.value.grant,
                                       StateAt(db, steps, n).authority.lease.value.grant)
    ensures Unbroken(steps[m..n])
  {
    SafeAt(db, steps, m);
    SafeAt(db, steps, n);
    RunsFrom(db, steps, m, n);
    AuthorityHistory.RunGrows(StateAt(db, steps, m), steps[m..n]);
    SameEpochSameGrant(StateAt(db, steps, m).authority, StateAt(db, steps, n).authority);
    SameEpochUnbroken(StateAt(db, steps, m), steps[m..n]);
  }

  lemma EpochGrows(db: Database, steps: seq<Step>, m: nat, n: nat)
    requires Inv(db) && Runs(db, steps) && m <= n <= |steps| && StateAt(db, steps, m).authority.lease.Some?
    ensures StateAt(db, steps, n).authority.lease.Some?
    ensures StateAt(db, steps, m).authority.lease.value.grant.epoch <= StateAt(db, steps, n).authority.lease.value.grant.epoch
  {
    SafeAt(db, steps, m);
    RunsFrom(db, steps, m, n);
    AuthorityHistory.RunGrows(StateAt(db, steps, m), steps[m..n]);
  }

  // ----- what a restart takes -----

  ghost predicate Grounded(a: Authority) {
    !LeaseLive(a) && (a.fence.Some? ==> a.fence.value.state.RESTART_REQUIRED?)
  }

  lemma ReopenGrounds(db: Database)
    requires AuthorityInv(db.authority)
    ensures Grounded(Apply(db, Reopen).authority)
  {
    AuthorityProofs.ReopenKeeps(db.authority);
  }

  ghost predicate BootstrappedAt(steps: seq<Step>, b: int) { 0 <= b < |steps| && steps[b].Bootstrap? }

  ghost predicate FencedAt(steps: seq<Step>, b: int, f: int) {
    BootstrappedAt(steps, b) && b < f < |steps| && steps[f].ReadyFence?
  }

  ghost predicate GrantedAt(steps: seq<Step>, b: int, f: int, l: int) {
    FencedAt(steps, b, f) && f < l < |steps| && steps[l].AcquireLease?
  }

  /** How far the authority has come since the restart, and through which commits. */
  ghost predicate Climbed(a: Authority, steps: seq<Step>) {
    && (a.fence.Some? && a.fence.value.state.FENCE_REQUIRED? ==> exists b :: BootstrappedAt(steps, b))
    && (a.fence.Some? && a.fence.value.state.READY? ==> exists b, f :: FencedAt(steps, b, f))
    && (LeaseLive(a) ==> exists b, f, l :: GrantedAt(steps, b, f, l))
  }

  lemma ClimbExtends(a: Authority, steps: seq<Step>, last: Step)
    requires Climbed(a, steps)
    ensures Climbed(a, steps + [last])
  {
    var more := steps + [last];
    assert forall i :: 0 <= i < |steps| ==> more[i] == steps[i];
    if a.fence.Some? && a.fence.value.state.FENCE_REQUIRED? {
      var b :| BootstrappedAt(steps, b);
      assert BootstrappedAt(more, b);
    }
    if a.fence.Some? && a.fence.value.state.READY? {
      var b, f :| FencedAt(steps, b, f);
      assert FencedAt(more, b, f);
    }
    if LeaseLive(a) {
      var b, f, l :| GrantedAt(steps, b, f, l);
      assert GrantedAt(more, b, f, l);
    }
  }

  lemma ClimbStart(a: Authority)
    requires Grounded(a)
    ensures Climbed(a, [])
  {
  }

  lemma ClimbStep(db: Database, steps: seq<Step>, last: Step)
    requires Enabled(db, last) && Climbed(db.authority, steps)
    requires last.Reopen? ==> Grounded(Apply(db, last).authority)
    ensures Climbed(Apply(db, last).authority, steps + [last])
  {
    var more, n := steps + [last], |steps|;
    ClimbExtends(db.authority, steps, last);
    match last
    case Bootstrap(holder, fenceId, ttl, renewal) => assert BootstrappedAt(more, n);
    case ReadyFence =>
      if db.authority.fence.value.state.FENCE_REQUIRED? {
        var b :| BootstrappedAt(steps, b);
        assert more[b] == steps[b];
        assert FencedAt(more, b, n);
      }
    case AcquireLease(_, _, _) =>
      var b, f :| FencedAt(steps, b, f);
      assert more[b] == steps[b] && more[f] == steps[f];
      assert GrantedAt(more, b, f, n);
    case _ =>
  }

  lemma {:induction false} ClimbRun(db: Database, steps: seq<Step>)
    requires Inv(db) && Grounded(db.authority) && Runs(db, steps)
    ensures Climbed(ApplyAll(db, steps).authority, steps)
    decreases |steps|
  {
    if steps != [] {
      var init, last := steps[..|steps| - 1], steps[|steps| - 1];
      ClimbRun(db, init);
      AuthoritySafe(db, init);
      ReopenGrounds(ApplyAll(db, init));
      ClimbStep(ApplyAll(db, init), init, last);
      SplitLast(steps);
    } else {
      ClimbStart(db.authority);
    }
  }

  /**
   After a restart no request has runtime authority until a bootstrap, a host
   fence and a lease acquisition have been committed, in that order.
   */
  lemma AuthorityNeedsTheWholeSequence(db: Database, steps: seq<Step>, instance: Id, leaseId: Id, epoch: int)
    requires Inv(db) && Runs(db, [Reopen] + steps)
    ensures AuthorityCurrent(ApplyAll(db, [Reopen] + steps).authority, instance, leaseId, epoch) ==>
      exists b, f, l :: GrantedAt(steps, b, f, l)
  {
    RunsConcat(db, [Reopen], steps);
    RunsOne(db, Reopen);
    StepKeeps(db, Reopen);
    ReopenGrounds(db);
    ClimbRun(Apply(db, Reopen), steps);
  }

  /** The three commits of a fresh handshake, in order. */
  function Handshake(a: Authority, holder: Holder, fenceId: Id, ttl: int, renewal: int, leaseId: Id): seq<Step> {
    var boot := BootDocument(holder, NextGeneration(a));
    var fence := FenceDocument(fenceId, holder, NextGeneration(a), NextGeneration(a));
    [Bootstrap(holder, fenceId, ttl, renewal), ReadyFence, AcquireLease(boot, fence, leaseId)]
  }

  lemma AfterBootstrap(db: Database, holder: Holder, fenceId: Id, ttl: int, renewal: int)
    requires AuthorityInv(db.authority)
    ensures var a := Apply(Apply(db, Bootstrap(holder, fenceId, ttl, renewal)), ReadyFence).authority;
      && a.fence.Some? && a.fence.value.state.READY? && a.fence.value.holder == holder && a.fence.value.fenceId == fenceId
      && a.fence.value.authorityGeneration == NextGeneration(db.authority)
      && a.history.Keys == db.authority.history.Keys
  {
    AuthorityProofs.RevokeCurrentKeeps(db.authority);
  }

  lemma AfterAcquire(db: Database, step: Step)
    requires Enabled(db, step) && step.AcquireLease? && AuthorityInv(Apply(db, step).authority)
    ensures var a := Apply(db, step).authority;
      a.lease.Some? && AuthorityCurrent(a, step.boot.holder.instance, step.leaseId, a.lease.value.grant.epoch)
  {
    var a := Apply(db, step).authority;
    JoinIsRowCheck(a, step.boot.holder.instance, step.leaseId, a.lease.value.grant.epoch);
  }

  /**
   The sequence also suffices: from any safe state whose counters are not
   exhausted, the three commits are possible and the new lease has authority.
   */
  lemma HandshakeGrants(db: Database, holder: Holder, fenceId: Id, ttl: int, renewal: int, leaseId: Id)
    requires Inv(db) && ValidPolicy(ttl, renewal) && leaseId !in db.authority.history
    requires db.authority.fence.Some? ==>
      db.authority.fence.value.authorityGeneration < MAX_INTEGER && db.authority.fence.value.epochCounter < MAX_INTEGER
    ensures var steps := Handshake(db.authority, holder, fenceId, ttl, renewal, leaseId);
      && Runs(db, steps)
      && var a := ApplyAll(db, steps).authority;
      && a.lease.Some? && AuthorityCurrent(a, holder.instance, leaseId, a.lease.value.grant.epoch)
  {
    var steps := Handshake(db.authority, holder, fenceId, ttl, renewal, leaseId);
    var booted := Apply(db, steps[0]);
    var ready := Apply(booted, ReadyFence);
    AuthorityProofs.CounterIsMaxEpoch(db.authority);
    StepKeeps(db, steps[0]);
    StepKeeps(booted, ReadyFence);
    AfterBootstrap(db, holder, fenceId, ttl, renewal);
    CounterAfter(db, holder, fenceId, ttl, renewal);
    StepKeeps(ready, steps[2]);
    AfterAcquire(ready, steps[2]);
    ThreeSteps(db, steps[0], ReadyFence, steps[2]);
  }

  lemma CounterAfter(db: Database, holder: Holder, fenceId: Id, ttl: int, renewal: int)
    requires AuthorityInv(db.authority)
    requires AuthorityInv(Apply(Apply(db, Bootstrap(holder, fenceId, ttl, renewal)), ReadyFence).authority)
    ensures EpochCounter(Apply(Apply(db, Bootstrap(holder, fenceId, ttl, renewal)), ReadyFence).authority)
         == EpochCounter(db.authority)
  {
    AuthorityProofs.CounterIsMaxEpoch(Apply(Apply(db, Bootstrap(holder, fenceId, ttl, renewal)), ReadyFence).authority);
  }

  lemma ThreeSteps(db: Database, a: Step, b: Step, c: Step)
    requires Enabled(db, a) && Enabled(Apply(db, a), b) && Enabled(Apply(Apply(db, a), b), c)
    ensures Runs(db, [a, b, c]) && ApplyAll(db, [a, b, c]) == Apply(Apply(Apply(db, a), b), c)
  {
    RunsOne(Apply(Apply(db, a), b), c);
    RunsOne(Apply(db, a), b);
    RunsOne(db, a);
    RunsConcat(Apply(db, a), [b], [c]);
    RunsConcat(db, [a], [b] + [c]);
    ThreeInOrder(a, b, c);
  }

  lemma ThreeInOrder(a: Step, b: Step, c: Step)
    ensures [a] + ([b] + [c]) == [a, b, c]
  {
  }
}
