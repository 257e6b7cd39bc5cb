/**
 Runs of commits.  A run is any sequence of commits each of which is enabled
 where it is made; every state of a run satisfies the invariant.
 */
module HostRuns {
  import opened HostRecords
  import opened HostCommits
  import opened HostInvariants
  import AuthorityProofs
  import JournalProofs
  import RuntimeProofs

  // ----- one commit -----

  lemma RotationKeeps(db: Database, a: Authority)
    requires Inv(db) && AuthorityInv(a)
    ensures Inv(Rotated(db, a))
  {
    JournalProofs.RotateKeeps(db.journal, db.authority, a);
    RuntimeProofs.RotateSoftens(db.runtime);
    RuntimeProofs.SoftenedKeeps(db.runtime, RotateRuntime(db.runtime));
  }

  ghost predicate RotatesAuthority(step: Step) { step.Reopen? || step.Bootstrap? || step.AcquireLease? }

  ghost predicate TouchesLease(step: Step) { step.ReadyFence? || step.RenewLease? || step.RevokeLease? }

  ghost predicate MovesOperation(step: Step) {
    step.RecordIntent? || step.AdmitOperation? || step.Dequeue? || step.MarkTicketUnknown? || step.QuarantineOperation?
  }

  ghost predicate ResolvesOperation(step: Step) {
    step.RecordEffect? || step.RecordReceipt? || step.SettleOperation? || step.ReconcileOperation?
  }

  lemma RotatingStepKeeps(db: Database, step: Step)
    requires Inv(db) && Enabled(db, step) && RotatesAuthority(step)
    ensures Inv(Apply(db, step))
  {
    match step
    case Reopen =>
      AuthorityProofs.ReopenKeeps(db.authority);
      RotationKeeps(db, ReopenAuthority(db.authority));
    case Bootstrap(holder, fenceId, ttl, renewal) =>
      AuthorityProofs.BootstrapKeeps(db.authority, holder, fenceId, ttl, renewal);
      RotationKeeps(db, BootstrapAuthority(db.authority, holder, fenceId, ttl, renewal));
    case AcquireLease(boot, fence, leaseId) =>
      AuthorityProofs.AcquireKeeps(db.authority, boot, fence, leaseId);
      RotationKeeps(db, AcquireAuthority(db.authority, boot, fence, leaseId));
  }

  lemma LeaseStepKeeps(db: Database, step: Step)
    requires Inv(db) && Enabled(db, step) && TouchesLease(step)
    ensures Inv(Apply(db, step))
  {
    match step {
      case ReadyFence => AuthorityProofs.ReadyKeeps(db.authority);
      case RenewLease(leaseId, sequence) => AuthorityProofs.RenewKeeps(db.authority, leaseId, sequence);
      case RevokeLease(leaseId, epoch) => AuthorityProofs.RevokeKeeps(db.authority, leaseId, epoch);
    }
    JournalProofs.JournalUnderAuthority(db.journal, db.authority, Apply(db, step).authority);
  }

  lemma MovingStepKeeps(db: Database, step: Step)
    requires JournalInv(db.journal, db.authority) && Enabled(db, step) && MovesOperation(step)
    ensures Apply(db, step).authority == db.authority && Apply(db, step).runtime == db.runtime
    ensures JournalInv(Apply(db, step).journal, db.authority)
  {
    var j, a := db.journal, db.authority;
    match step
    case RecordIntent(id, row) => JournalProofs.IntentKeeps(db, id, row);
    case AdmitOperation(id, t, expires) => JournalProofs.AdmitKeeps(db, id, t, expires);
    case Dequeue(id) => JournalProofs.DequeueKeeps(j, a, id);
    case MarkTicketUnknown(id) => JournalProofs.MarkTicketKeeps(j, a, id);
    case QuarantineOperation(id) => JournalProofs.QuarantineKeeps(j, a, id);
  }

  lemma ResolvingStepKeeps(db: Database, step: Step)
    requires JournalInv(db.journal, db.authority) && Enabled(db, step) && ResolvesOperation(step)
    ensures Apply(db, step).authority == db.authority && Apply(db, step).runtime == db.runtime
    ensures JournalInv(Apply(db, step).journal, db.authority)
  {
    var j, a := db.journal, db.authority;
    match step
    case RecordEffect(id, w) => JournalProofs.EffectKeeps(db, id, w);
    case RecordReceipt(id, receipt) => JournalProofs.ReceiptKeeps(j, a, id, receipt);
    case SettleOperation(id, receipt) => JournalProofs.SettleKeeps(j, a, id, receipt);
    case ReconcileOperation(id, strategy) => JournalProofs.ReconcileKeeps(j, a, id, strategy);
  }

  ghost predicate MovesStatus(step: Step) {
    step.BeginRuntime? || step.MarkRuntimeUnknown? || step.MarkSessionUnknown? || step.DequeueSessionUnknown?
  }

  lemma StatusStepSoftens(db: Database, step: Step)
    requires Enabled(db, step) && MovesStatus(step)
    ensures RuntimeProofs.Softened(db.runtime, Apply(db, step).runtime)
  {
  }

  lemma StatusStepKeeps(db: Database, step: Step)
    requires Inv(db) && Enabled(db, step) && MovesStatus(step)
    ensures Inv(Apply(db, step))
  {
    StatusStepSoftens(db, step);
    RuntimeProofs.SoftenedKeeps(db.runtime, Apply(db, step).runtime);
  }

  lemma RuntimeRowStepKeeps(db: Database, step: Step)
    requires Inv(db) && Enabled(db, step)
    requires step.SaveSession? || step.AdmitRuntime? || step.SettleRuntime?
    ensures Inv(Apply(db, step))
  {
    match step
    case SaveSession(row) => RuntimeProofs.SaveKeeps(db.runtime, row);
    case AdmitRuntime(op) => RuntimeProofs.AdmitKeeps(db, op);
    case SettleRuntime(id, proof, result, next) => RuntimeProofs.SettleKeeps(db, id, proof, result, next);
  }

  lemma StepKeeps(db: Database, step: Step)
    requires Inv(db) && Enabled(db, step)
    ensures Inv(Apply(db, step))
  {
    if RotatesAuthority(step) { RotatingStepKeeps(db, step); }
    else if TouchesLease(step) { LeaseStepKeeps(db, step); }
    else if MovesOperation(step) { MovingStepKeeps(db, step); }
    else if ResolvesOperation(step) { ResolvingStepKeeps(db, step); }
    else if MovesStatus(step) { StatusStepKeeps(db, step); }
    else { RuntimeRowStepKeeps(db, step); }
  }

  lemma EmptyInv()
    ensures Inv(EmptyDatabase)
  {
  }

  // ----- sequences of commits -----

  /** Every commit of the sequence is enabled in the state it is made in. */
  ghost predicate Runs(db: Database, steps: seq<Step>) {
    steps != [] ==>
      && Runs(db, steps[..|steps| - 1])
      && Enabled(ApplyAll(db, steps[..|steps| - 1]), steps[|steps| - 1])
  }

  lemma SplitLast(steps: seq<Step>)
    requires steps != []
    ensures steps == steps[..|steps| - 1] + [steps[|steps| - 1]]
  {
  }

  lemma RunsThen(db: Database, steps: seq<Step>, step: Step)
    ensures ApplyAll(db, steps + [step]) == Apply(ApplyAll(db, steps), step)
    ensures Runs(db, steps + [step]) <==> Runs(db, steps) && Enabled(ApplyAll(db, steps), step)
  {
    assert (steps + [step])[..|steps|] == steps;
  }

  lemma RunsOne(db: Database, step: Step)
    ensures ApplyAll(db, [step]) == Apply(db, step)
    ensures Runs(db, [step]) <==> Enabled(db, step)
  {
    RunsThen(db, [], step);
    assert [] + [step] == [step];
  }

  lemma {:induction false} RunsConcat(db: Database, first: seq<Step>, second: seq<Step>)
    ensures ApplyAll(db, first + second) == ApplyAll(ApplyAll(db, first), second)
    ensures Runs(db, first + second) <==> Runs(db, first) && Runs(ApplyAll(db, first), second)
    decreases |second|
  {
    if second == [] {
      assert first + second == first;
    } else {
      var init, last := second[..|second| - 1], second[|second| - 1];
      RunsConcat(db, first, init);
      RunsThen(db, first + init, last);
      assert first + second == first + init + [last];
    }
  }

  lemma AppliesTwo(db: Database, a: Step, b: Step)
    ensures ApplyAll(db, [a, b]) == Apply(Apply(db, a), b)
  {
    RunsOne(db, a);
    RunsThen(db, [a], b);
    assert [a] + [b] == [a, b];
  }

  lemma AppliesFour(db: Database, a: Step, b: Step, c: Step, d: Step)
    ensures ApplyAll(db, [a, b, c, d]) == Apply(Apply(Apply(Apply(db, a), b), c), d)
  {
    RunsOne(db, a);
    RunsThen(db, [a], b);
    RunsThen(db, [a] + [b], c);
    RunsThen(db, [a] + [b] + [c], d);
    assert [a] + [b] + [c] + [d] == [a, b, c, d];
  }

  lemma RunsAfter(db: Database, step: Step, rest: seq<Step>)
    requires Enabled(db, step) && Runs(Apply(db, step), rest)
    ensures Runs(db, [step] + rest)
  {
    RunsOne(db, step);
    RunsConcat(db, [step], rest);
  }

  lemma RunsPrefix(db: Database, steps: seq<Step>, n: nat)
    requires Runs(db, steps) && n <= |steps|
    ensures Runs(db, steps[..n])
  {
    RunsConcat(db, steps[..n], steps[n..]);
    assert steps == steps[..n] + steps[n..];
  }

  /** The state in which commit `n` of a sequence is made. */
  function StateAt(db: Database, steps: seq<Step>, n: nat): Database
    requires n <= |steps|
  {
    ApplyAll(db, steps[..n])
  }

  lemma RunsAt(db: Database, steps: seq<Step>, n: nat)
    requires Runs(db, steps) && n < |steps|
    ensures Runs(db, steps[..n]) && Enabled(StateAt(db, steps, n), steps[n])
    ensures StateAt(db, steps, n + 1) == Apply(StateAt(db, steps, n), steps[n])
  {
    RunsPrefix(db, steps, n + 1);
    RunsThen(db, steps[..n], steps[n]);
    assert steps[..n + 1] == steps[..n] + [steps[n]];
  }

  /** The part of a run between two of its states is itself a run. */
  lemma RunsFrom(db: Database, steps: seq<Step>, m: nat, n: nat)
    requires Runs(db, steps) && m <= n <= |steps|
    ensures Runs(StateAt(db, steps, m), steps[m..n])
    ensures ApplyAll(StateAt(db, steps, m), steps[m..n]) == StateAt(db, steps, n)
  {
    RunsPrefix(db, steps, n);
    RunsConcat(db, steps[..m], steps[m..n]);
    assert steps[..n] == steps[..m] + steps[m..n];
  }

  lemma {:induction false} RunKeeps(db: Database, steps: seq<Step>)
    requires Inv(db) && Runs(db, steps)
    ensures Inv(ApplyAll(db, steps))
    decreases |steps|
  {
    if steps != [] {
      RunKeeps(db, steps[..|steps| - 1]);
      StepKeeps(ApplyAll(db, steps[..|steps| - 1]), steps[|steps| - 1]);
    }
  }

  lemma SafeAt(db: Database, steps: seq<Step>, n: nat)
    requires Inv(db) && Runs(db, steps) && n <= |steps|
    ensures Inv(StateAt(db, steps, n))
  {
    RunsPrefix(db, steps, n);
    RunKeeps(db, steps[..n]);
  }
}
