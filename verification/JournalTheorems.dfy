/**
 Theorems about effects: at most one per operation over a whole run, only under
 the authority the operation was submitted under, and never after its deadline.
 */
module JournalTheorems {
  import opened Identity
  import opened HostRecords
  import opened HostCommits
  import opened HostReplies
  import opened LeaseHandlers
  import opened JournalHandlers
  import opened HostInvariants
  import opened HostRuns
  import JournalHistory
  import AuthorityHistory
  import AuthorityTheorems

  // ----- at most one effect -----

  predicate IsEffect(step: Step, id: Id) { step.RecordEffect? && step.id == id }

  predicate IsReceipt(step: Step, id: Id) { step.RecordReceipt? && step.id == id }

  /** How often a run commits the effect of an operation. */
  function EffectCount(steps: seq<Step>, id: Id): nat {
    if steps == [] then 0
    else EffectCount(steps[..|steps| - 1], id) + if IsEffect(steps[|steps| - 1], id) then 1 else 0
  }

  function ReceiptCount(steps: seq<Step>, id: Id): nat {
    if steps == [] then 0
    else ReceiptCount(steps[..|steps| - 1], id) + if IsReceipt(steps[|steps| - 1], id) then 1 else 0
  }

  /** An effect commit fills an empty place, and nothing else touches the effects table. */
  lemma EffectStep(db: Database, step: Step, id: Id)
    requires Enabled(db, step)
    ensures IsEffect(step, id) ==> id !in db.journal.effects && id in Apply(db, step).journal.effects
    ensures !IsEffect(step, id) ==> (id in Apply(db, step).journal.effects <==> id in db.journal.effects)
  {
  }

  lemma ReceiptStep(db: Database, step: Step, id: Id)
    requires Enabled(db, step)
    ensures IsReceipt(step, id) ==> id !in db.journal.receipts && id in Apply(db, step).journal.receipts
    ensures !IsReceipt(step, id) ==> (id in Apply(db, step).journal.receipts <==> id in db.journal.receipts)
  {
  }

  /**
   Over any run from an empty database, crashes included, an operation has one
   effect if its row is in the effects table and none otherwise; never two.
   */
  lemma {:induction false} EffectsAreUnique(steps: seq<Step>, id: Id)
    requires Runs(EmptyDatabase, steps)
    ensures EffectCount(steps, id) == if id in ApplyAll(EmptyDatabase, steps).journal.effects then 1 else 0
    decreases |steps|
  {
    if steps != [] {
      var init, last := steps[..|steps| - 1], steps[|steps| - 1];
      EffectsAreUnique(init, id);
      EffectStep(ApplyAll(EmptyDatabase, init), last, id);
    }
  }

  lemma {:induction false} ReceiptsAreUnique(steps: seq<Step>, id: Id)
    requires Runs(EmptyDatabase, steps)
    ensures ReceiptCount(steps, id) == if id in ApplyAll(EmptyDatabase, steps).journal.receipts then 1 else 0
    decreases |steps|
  {
    if steps != [] {
      var init, last := steps[..|steps| - 1], steps[|steps| - 1];
      ReceiptsAreUnique(init, id);
      ReceiptStep(ApplyAll(EmptyDatabase, init), last, id);
    }
  }

  predicate ResolvedState(state: JournalState) { state.SETTLED? || state.RECONCILED? }

  /** What the tables say about an operation in any safe state. */
  lemma TablesAgree(j: Journal, a: Authority, id: Id)
    requires JournalInv(j, a) && id in j.operations
    ensures var op := j.operations[id];
      && (op.effectWitness.Some? <==> id in j.effects)
      && (op.effectWitness.Some? ==> j.effects[id].effectWitness == op.effectWitness.value)
      && (id in j.receipts ==> id in j.effects && j.receipts[id].effectWitness == j.effects[id].effectWitness)
      && (op.state.SETTLED? ==> id in j.receipts)
      && (op.state.RECONCILED? ==> id in j.effects)
      && (op.state.INTENT_RECORDED? || op.state.MAY_HAVE_BEEN_DISPATCHED? ==> id !in j.effects)
      && (op.state.MAY_HAVE_BEEN_DISPATCHED? ==> id in j.queue)
  {
    assert OperationInv(j, a, id);
  }

  // ----- effects happen under the authority of their intent -----

  /** Commit `i` recorded the intent, with the context the operation still has. */
  ghost predicate RecordedAt(steps: seq<Step>, i: int, id: Id, context: OriginalContext) {
    0 <= i < |steps| && steps[i].RecordIntent? && steps[i].id == id && steps[i].intent.context == context
  }

  /** Only its intent puts an operation on record, and nothing changes its context afterwards. */
  lemma RecordedStep(db: Database, step: Step, id: Id)
    requires Enabled(db, step) && id in Apply(db, step).journal.operations
    ensures
      || (&& step.RecordIntent? && step.id == id
          && step.intent.context == Apply(db, step).journal.operations[id].context)
      || (&& id in db.journal.operations
          && db.journal.operations[id].context == Apply(db, step).journal.operations[id].context)
  {
  }

  lemma NothingRecorded(id: Id)
    ensures id !in EmptyDatabase.journal.operations
  {
  }

  lemma {:induction false} RecordedRun(steps: seq<Step>, id: Id) returns (i: int)
    requires Runs(EmptyDatabase, steps) && id in ApplyAll(EmptyDatabase, steps).journal.operations
    ensures RecordedAt(steps, i, id, ApplyAll(EmptyDatabase, steps).journal.operations[id].context)
    decreases |steps|
  {
    NothingRecorded(id);
    i := |steps| - 1;
    RecordedStep(ApplyAll(EmptyDatabase, steps[..i]), steps[i], id);
    if !RecordedAt(steps, i, id, ApplyAll(EmptyDatabase, steps).journal.operations[id].context) {
      i := RecordedRun(steps[..i], id);
    }
  }

  ghost predicate DispatchedAt(steps: seq<Step>, d: int, id: Id, ticket: Ticket, expiresTick: int) {
    0 <= d < |steps| && steps[d] == AdmitOperation(id, ticket, expiresTick)
  }

  ghost predicate IsDispatched(db: Database, id: Id) {
    && id in db.journal.operations && db.journal.operations[id].state.MAY_HAVE_BEEN_DISPATCHED?
    && db.journal.operations[id].ticket.Some?
  }

  /** Only its own dispatch puts an operation in the dispatched state, with ticket and deadline. */
  lemma DispatchStep(db: Database, step: Step, id: Id)
    requires Enabled(db, step) && IsDispatched(Apply(db, step), id)
    ensures
      || step == AdmitOperation(id, Apply(db, step).journal.operations[id].ticket.value,
                                Apply(db, step).journal.operations[id].ticketExpiresTick)
      || (IsDispatched(db, id) && db.journal.operations[id] == Apply(db, step).journal.operations[id])
  {
    if RotatesAuthority(step) { RotationUndispatches(db.journal, id); }
    else if !JournalHistory.AboutOperation(step) { JournalHistory.OtherStepKeeps(db, step); }
  }

  lemma RotationUndispatches(j: Journal, id: Id)
    ensures id in RotateJournal(j).operations ==> !RotateJournal(j).operations[id].state.MAY_HAVE_BEEN_DISPATCHED?
  {
  }

  lemma NothingDispatched(id: Id)
    ensures !IsDispatched(EmptyDatabase, id)
  {
  }

  lemma {:induction false} DispatchedRun(steps: seq<Step>, id: Id) returns (d: int)
    requires Runs(EmptyDatabase, steps) && IsDispatched(ApplyAll(EmptyDatabase, steps), id)
    ensures var op := ApplyAll(EmptyDatabase, steps).journal.operations[id];
      DispatchedAt(steps, d, id, op.ticket.value, op.ticketExpiresTick)
    decreases |steps|
  {
    NothingDispatched(id);
    d := |steps| - 1;
    DispatchStep(ApplyAll(EmptyDatabase, steps[..d]), steps[d], id);
    if !(steps[d].AdmitOperation? && steps[d].id == id) { d := DispatchedRun(steps[..d], id); }
  }

  /** The live lease is the one the context names, under the open fence the ticket names. */
  ghost predicate OwnAuthority(a: Authority, context: OriginalContext, ticket: Ticket) {
    && LeaseLive(a) && a.fence.Some? && a.fence.value.state.READY?
    && var g, fence := a.lease.value.grant, a.fence.value;
    && g.epoch == context.epoch && g.leaseId == context.leaseId && g.holder == context.holder == fence.holder
    && ticket.fenceId == g.fenceId == fence.fenceId
  }

  /**
   The intent `i`, the dispatch `d` and the effect `k` of one operation: all
   under one grant that is live throughout, which is the grant the intent named
   and the fence the ticket names, and before the dispatch's deadline.
   */
  ghost predicate EffectOf(db: Database, steps: seq<Step>, i: int, d: int, k: nat)
    requires k < |steps| && steps[k].RecordEffect?
  {
    && 0 <= i < d < k && steps[i].RecordIntent? && steps[d].AdmitOperation?
    && steps[i].id == steps[d].id == steps[k].id
    && AuthorityTheorems.Unbroken(steps[i..k])
    && var first, was, now := StateAt(db, steps, i).authority, StateAt(db, steps, d).authority, StateAt(db, steps, k).authority;
    && LeaseLive(first) && LeaseLive(was) && OwnAuthority(now, steps[i].intent.context, steps[d].ticket)
    && AuthorityHistory.GrantAges(first.lease.value.grant, was.lease.value.grant)
    && AuthorityHistory.GrantAges(was.lease.value.grant, now.lease.value.grant)
    && now.clock < was.clock + was.lease.value.grant.ttl
  }

  lemma AdmissionDeadline(db: Database, step: Step)
    requires AuthorityInv(db.authority) && Enabled(db, step) && step.AdmitOperation?
    ensures LeaseLive(db.authority) && step.expiresTick == db.authority.clock + db.authority.lease.value.grant.ttl
    ensures step.id in db.journal.operations && db.journal.operations[step.id].state.INTENT_RECORDED?
  {
  }

  lemma AdmissionAt(db: Database, steps: seq<Step>, d: nat)
    requires Inv(db) && Runs(db, steps) && d < |steps| && steps[d].AdmitOperation?
    ensures LeaseLive(StateAt(db, steps, d).authority)
    ensures steps[d].expiresTick
         == StateAt(db, steps, d).authority.clock + StateAt(db, steps, d).authority.lease.value.grant.ttl
    ensures steps[d].id in StateAt(db, steps, d).journal.operations
    ensures StateAt(db, steps, d).journal.operations[steps[d].id].state.INTENT_RECORDED?
  {
    SafeAt(db, steps, d);
    RunsAt(db, steps, d);
    AdmissionDeadline(StateAt(db, steps, d), steps[d]);
  }

  lemma IntentAt(db: Database, steps: seq<Step>, i: nat)
    requires Runs(db, steps) && i < |steps| && steps[i].RecordIntent?
    ensures LeaseLive(StateAt(db, steps, i).authority)
    ensures var g, context := StateAt(db, steps, i).authority.lease.value.grant, steps[i].intent.context;
      g.epoch == context.epoch && g.leaseId == context.leaseId && g.holder == context.holder
  {
    RunsAt(db, steps, i);
  }

  /** What an effect commit finds: its operation dispatched, in time, under a live lease of the context's epoch. */
  lemma EffectFinds(db: Database, step: Step)
    requires Inv(db) && Enabled(db, step) && step.RecordEffect?
    ensures IsDispatched(db, step.id) && LeaseLive(db.authority)
    ensures var op, g := db.journal.operations[step.id], db.authority.lease.value.grant;
      && db.authority.clock < op.ticketExpiresTick && g.epoch == op.context.epoch
      && op.ticket.value.fenceId == g.fenceId
      && db.authority.fence.Some? && db.authority.fence.value.state.READY?
      && g.holder == db.authority.fence.value.holder && g.fenceId == db.authority.fence.value.fenceId
  {
    assert OperationInv(db.journal, db.authority, step.id);
  }

  lemma EffectAt(steps: seq<Step>, k: nat)
    requires Runs(EmptyDatabase, steps) && k < |steps| && steps[k].RecordEffect?
    ensures Runs(EmptyDatabase, steps[..k])
    ensures Inv(StateAt(EmptyDatabase, steps, k)) && Enabled(StateAt(EmptyDatabase, steps, k), steps[k])
  {
    EmptyInv();
    SafeAt(EmptyDatabase, steps, k);
    RunsAt(EmptyDatabase, steps, k);
  }

  /** A row keeps its context from one point of a run to any later one. */
  lemma ContextKept(steps: seq<Step>, m: nat, n: nat, id: Id)
    requires Runs(EmptyDatabase, steps) && m <= n <= |steps| && id in StateAt(EmptyDatabase, steps, m).journal.operations
    ensures id in StateAt(EmptyDatabase, steps, n).journal.operations
    ensures JournalHistory.RowAges(StateAt(EmptyDatabase, steps, m).journal.operations[id],
                                   StateAt(EmptyDatabase, steps, n).journal.operations[id])
  {
    EmptyInv();
    SafeAt(EmptyDatabase, steps, m);
    RunsFrom(EmptyDatabase, steps, m, n);
    JournalHistory.RunGrows(StateAt(EmptyDatabase, steps, m), steps[m..n]);
  }

  /** The dispatch of an effect, and the intent of that dispatch. */
  lemma OriginOf(steps: seq<Step>, k: nat) returns (i: int, d: int)
    requires Runs(EmptyDatabase, steps) && k < |steps| && steps[k].RecordEffect?
    ensures 0 <= i < d < k && IsDispatched(StateAt(EmptyDatabase, steps, k), steps[k].id)
    ensures var op := StateAt(EmptyDatabase, steps, k).journal.operations[steps[k].id];
      && RecordedAt(steps, i, steps[k].id, op.context)
      && DispatchedAt(steps, d, steps[k].id, op.ticket.value, op.ticketExpiresTick)
  {
    EffectAt(steps, k);
    EffectFinds(StateAt(EmptyDatabase, steps, k), steps[k]);
    d := DispatchedRun(steps[..k], steps[k].id);
    EmptyInv();
    AdmissionAt(EmptyDatabase, steps, d);
    RunsPrefix(EmptyDatabase, steps, d);
    i := RecordedRun(steps[..d], steps[k].id);
    ContextKept(steps, d, k, steps[k].id);
  }

  lemma OneGrant(steps: seq<Step>, i: nat, d: nat, k: nat)
    requires Runs(EmptyDatabase, steps) && i <= d <= k <= |steps| && LeaseLive(StateAt(EmptyDatabase, steps, i).authority)
    requires LeaseLive(StateAt(EmptyDatabase, steps, d).authority) && LeaseLive(StateAt(EmptyDatabase, steps, k).authority)
    requires StateAt(EmptyDatabase, steps, i).authority.lease.value.grant.epoch
          == StateAt(EmptyDatabase, steps, k).authority.lease.value.grant.epoch
    ensures AuthorityTheorems.Unbroken(steps[i..k])
    ensures AuthorityHistory.GrantAges(StateAt(EmptyDatabase, steps, i).authority.lease.value.grant,
                                       StateAt(EmptyDatabase, steps, d).authority.lease.value.grant)
    ensures AuthorityHistory.GrantAges(StateAt(EmptyDatabase, steps, d).authority.lease.value.grant,
                                       StateAt(EmptyDatabase, steps, k).authority.lease.value.grant)
  {
    EmptyInv();
    AuthorityTheorems.EpochGrows(EmptyDatabase, steps, i, d);
    AuthorityTheorems.EpochGrows(EmptyDatabase, steps, d, k);
    AuthorityTheorems.OneLeaseBetween(EmptyDatabase, steps, i, k);
    AuthorityTheorems.OneLeaseBetween(EmptyDatabase, steps, i, d);
    AuthorityTheorems.OneLeaseBetween(EmptyDatabase, steps, d, k);
  }

  /**
   Every effect of every run belongs to an intent and a dispatch of the same
   operation.  From the intent to the effect one and the same lease is current,
   with no restart, bootstrap, acquisition or revocation in between; it is the
   lease the operation's original context names, and its open fence is the one
   on the ticket.  The effect comes strictly before the dispatch-time clock plus
   the lease's time to live, however often the lease was renewed meanwhile.
   */
  lemma EffectBelongsToItsDispatch(steps: seq<Step>, k: nat)
    requires Runs(EmptyDatabase, steps) && k < |steps| && steps[k].RecordEffect?
    ensures exists i, d :: EffectOf(EmptyDatabase, steps, i, d, k)
  {
    var i, d := OriginOf(steps, k);
    EmptyInv();
    EffectAt(steps, k);
    EffectFinds(StateAt(EmptyDatabase, steps, k), steps[k]);
    AdmissionAt(EmptyDatabase, steps, d);
    IntentAt(EmptyDatabase, steps, i);
    OneGrant(steps, i, d, k);
    assert EffectOf(EmptyDatabase, steps, i, d, k);
  }

  // ----- operations dispatched under another lease -----

  /** The live lease has the epoch, boot and incarnation the operation was submitted under. */
  ghost predicate Fits(db: Database, id: Id) {
    && id in db.journal.operations && LeaseLive(db.authority)
    && var context, g := db.journal.operations[id].context, db.authority.lease.value.grant;
    g.epoch == context.epoch && g.holder.boot == context.holder.boot && g.holder.incarnation == context.holder.incarnation
  }

  /** An operation is dispatched at most once in a run. */
  lemma DispatchedOnce(steps: seq<Step>, d: nat, e: nat)
    requires Runs(EmptyDatabase, steps) && d < e < |steps| && steps[d].AdmitOperation? && steps[e].AdmitOperation?
    ensures steps[d].id != steps[e].id
  {
    if steps[d].id == steps[e].id {
      EmptyInv();
      AdmissionAt(EmptyDatabase, steps, d);
      AdmissionAt(EmptyDatabase, steps, e);
      RunsAt(EmptyDatabase, steps, d);
      ContextKept(steps, d + 1, e, steps[d].id);
    }
  }

  lemma {:induction false} EffectPosition(steps: seq<Step>, id: Id) returns (k: nat)
    requires EffectCount(steps, id) > 0
    ensures k < |steps| && IsEffect(steps[k], id)
    decreases |steps|
  {
    k := |steps| - 1;
    if !IsEffect(steps[k], id) { k := EffectPosition(steps[..k], id); }
  }

  lemma OwnDispatchFits(steps: seq<Step>, i: int, d: int, k: nat)
    requires Runs(EmptyDatabase, steps) && k < |steps| && steps[k].RecordEffect? && EffectOf(EmptyDatabase, steps, i, d, k)
    ensures Fits(StateAt(EmptyDatabase, steps, d), steps[d].id)
  {
    IntentKept(steps, i, d);
  }

  lemma SameDispatch(steps: seq<Step>, d: nat, e: nat)
    requires Runs(EmptyDatabase, steps) && d < |steps| && e < |steps|
    requires steps[d].AdmitOperation? && steps[e].AdmitOperation? && steps[d].id == steps[e].id
    ensures d == e
  {
    if d < e { DispatchedOnce(steps, d, e); } else if e < d { DispatchedOnce(steps, e, d); }
  }

  /** The dispatch of an operation that takes effect was made under a lease that fits it. */
  lemma EffectiveDispatchFits(steps: seq<Step>, d: nat, k: nat)
    requires Runs(EmptyDatabase, steps) && d < |steps| && k < |steps|
    requires steps[d].AdmitOperation? && IsEffect(steps[k], steps[d].id)
    ensures Fits(StateAt(EmptyDatabase, steps, d), steps[d].id)
  {
    EffectBelongsToItsDispatch(steps, k);
    var i, e :| EffectOf(EmptyDatabase, steps, i, e, k);
    SameDispatch(steps, d, e);
    OwnDispatchFits(steps, i, d, k);
  }

  lemma IntentKept(steps: seq<Step>, i: nat, n: nat)
    requires Runs(EmptyDatabase, steps) && i < n <= |steps| && steps[i].RecordIntent?
    ensures steps[i].id in StateAt(EmptyDatabase, steps, n).journal.operations
    ensures StateAt(EmptyDatabase, steps, n).journal.operations[steps[i].id].context == steps[i].intent.context
  {
    RunsAt(EmptyDatabase, steps, i);
    ContextKept(steps, i + 1, n, steps[i].id);
  }

  /**
   A dispatch does not ask whether the presented lease is the one the operation
   was submitted under.  One that was dispatched under a lease that does not fit
   has no effect in any run that contains this dispatch: it stays dispatched or
   becomes uncertain, without a witness.
   */
  lemma ForeignNeverTakesEffect(steps: seq<Step>, d: nat)
    requires Runs(EmptyDatabase, steps) && d < |steps| && steps[d].AdmitOperation?
    requires !Fits(StateAt(EmptyDatabase, steps, d), steps[d].id)
    ensures EffectCount(steps, steps[d].id) == 0
    ensures Ineffective(ApplyAll(EmptyDatabase, steps).journal, steps[d].id)
  {
    if EffectCount(steps, steps[d].id) > 0 {
      var k := EffectPosition(steps, steps[d].id);
      EffectiveDispatchFits(steps, d, k);
    }
    EffectsAreUnique(steps, steps[d].id);
    WithoutEffect(steps, d);
  }

  ghost predicate Ineffective(j: Journal, id: Id) {
    && id in j.operations && id !in j.effects && id !in j.receipts
    && (j.operations[id].state.MAY_HAVE_BEEN_DISPATCHED? || j.operations[id].state.UNKNOWN?)
  }

  lemma AgedWithoutEffect(j: Journal, a: Authority, id: Id, was: OperationRow)
    requires JournalInv(j, a) && id in j.operations && id !in j.effects
    requires was.state.MAY_HAVE_BEEN_DISPATCHED? && JournalHistory.RowAges(was, j.operations[id])
    ensures Ineffective(j, id)
  {
    TablesAgree(j, a, id);
  }

  lemma DispatchedAfter(steps: seq<Step>, d: nat) returns (n: nat)
    requires Runs(EmptyDatabase, steps) && d < |steps| && steps[d].AdmitOperation?
    ensures n <= |steps| && steps[d].id in StateAt(EmptyDatabase, steps, n).journal.operations
    ensures StateAt(EmptyDatabase, steps, n).journal.operations[steps[d].id].state.MAY_HAVE_BEEN_DISPATCHED?
  {
    n := d + 1;
    EmptyInv();
    AdmissionAt(EmptyDatabase, steps, d);
    RunsAt(EmptyDatabase, steps, d);
  }

  lemma AtTheEnd(db: Database, steps: seq<Step>)
    ensures StateAt(db, steps, |steps|) == ApplyAll(db, steps)
  {
    assert steps[..|steps|] == steps;
  }

  lemma WithoutEffectSince(steps: seq<Step>, n: nat, id: Id)
    requires Runs(EmptyDatabase, steps) && n <= |steps| && id in StateAt(EmptyDatabase, steps, n).journal.operations
    requires StateAt(EmptyDatabase, steps, n).journal.operations[id].state.MAY_HAVE_BEEN_DISPATCHED?
    requires id !in StateAt(EmptyDatabase, steps, |steps|).journal.effects
    ensures Ineffective(StateAt(EmptyDatabase, steps, |steps|).journal, id)
  {
    EmptyInv();
    SafeAt(EmptyDatabase, steps, |steps|);
    ContextKept(steps, n, |steps|, id);
    AgedWithoutEffect(StateAt(EmptyDatabase, steps, |steps|).journal, StateAt(EmptyDatabase, steps, |steps|).authority, id,
                      StateAt(EmptyDatabase, steps, n).journal.operations[id]);
  }

  lemma WithoutEffect(steps: seq<Step>, d: nat)
    requires Runs(EmptyDatabase, steps) && d < |steps| && steps[d].AdmitOperation?
    requires steps[d].id !in ApplyAll(EmptyDatabase, steps).journal.effects
    ensures Ineffective(ApplyAll(EmptyDatabase, steps).journal, steps[d].id)
  {
    var n := DispatchedAfter(steps, d);
    AtTheEnd(EmptyDatabase, steps);
    WithoutEffectSince(steps, n, steps[d].id);
  }

  lemma DispatchedMayTakeEffect(db: Database, step: Step) returns (effect: Step)
    requires AuthorityInv(db.authority) && JournalInv(db.journal, db.authority) && Enabled(db, step)
    requires step.AdmitOperation? && Fits(db, step.id)
    ensures IsEffect(effect, step.id) && Enabled(Apply(db, step), effect)
  {
    assert OperationInv(db.journal, db.authority, step.id);
    var j := Apply(db, step).journal;
    effect := RecordEffect(step.id, EffectWitnessFor(step.id, j.operations[step.id], j.queue[step.id], step.id));
  }

  lemma FittingTakesEffect(steps: seq<Step>, step: Step) returns (effect: Step)
    requires Runs(EmptyDatabase, steps + [step]) && step.AdmitOperation? && Fits(ApplyAll(EmptyDatabase, steps), step.id)
    ensures Runs(EmptyDatabase, steps + [step] + [effect]) && IsEffect(effect, step.id)
  {
    RunsThen(EmptyDatabase, steps, step);
    EmptyInv();
    RunKeeps(EmptyDatabase, steps);
    effect := DispatchedMayTakeEffect(ApplyAll(EmptyDatabase, steps), step);
    RunsThen(EmptyDatabase, steps + [step], effect);
  }

  lemma TakesEffectOnlyIfFitting(steps: seq<Step>, step: Step, more: seq<Step>)
    requires Runs(EmptyDatabase, steps + [step] + more) && step.AdmitOperation?
    requires EffectCount(steps + [step] + more, step.id) > 0
    ensures Fits(ApplyAll(EmptyDatabase, steps), step.id)
  {
    var k := EffectPosition(steps + [step] + more, step.id);
    StatePrefix(steps, step, more);
    EffectiveDispatchFits(steps + [step] + more, |steps|, k);
  }

  /** The run goes on to commit the effect of an operation. */
  ghost predicate TakesEffect(steps: seq<Step>, more: seq<Step>, id: Id) {
    Runs(EmptyDatabase, steps + more) && EffectCount(steps + more, id) > 0
  }

  /** A run that dispatches an operation last can be continued to its effect if and only if the lease fits. */
  lemma EffectPossibleIff(steps: seq<Step>, step: Step)
    requires Runs(EmptyDatabase, steps + [step]) && step.AdmitOperation?
    ensures Fits(ApplyAll(EmptyDatabase, steps), step.id) <==> exists more :: TakesEffect(steps + [step], more, step.id)
  {
    if Fits(ApplyAll(EmptyDatabase, steps), step.id) {
      var effect := FittingTakesEffect(steps, step);
      EffectCountsLast(steps + [step], effect, step.id);
      assert TakesEffect(steps + [step], [effect], step.id);
    }
    if more :| TakesEffect(steps + [step], more, step.id) {
      TakesEffectOnlyIfFitting(steps, step, more);
    }
  }

  lemma StatePrefix(steps: seq<Step>, step: Step, more: seq<Step>)
    ensures (steps + [step] + more)[|steps|] == step
    ensures StateAt(EmptyDatabase, steps + [step] + more, |steps|) == ApplyAll(EmptyDatabase, steps)
  {
    assert (steps + [step] + more)[..|steps|] == steps;
  }

  lemma EffectCountsLast(steps: seq<Step>, step: Step, id: Id)
    requires IsEffect(step, id)
    ensures EffectCount(steps + [step], id) > 0
  {
    assert (steps + [step])[..|steps|] == steps;
  }

  /** Every operation on record was submitted under the current epoch or an earlier one. */
  lemma SubmittedEarlier(steps: seq<Step>, id: Id)
    requires Runs(EmptyDatabase, steps) && id in ApplyAll(EmptyDatabase, steps).journal.operations
    ensures ApplyAll(EmptyDatabase, steps).authority.lease.Some?
    ensures ApplyAll(EmptyDatabase, steps).journal.operations[id].context.epoch
         <= ApplyAll(EmptyDatabase, steps).authority.lease.value.grant.epoch
  {
    var i := RecordedRun(steps, id);
    EmptyInv();
    IntentAt(EmptyDatabase, steps, i);
    AuthorityTheorems.EpochGrows(EmptyDatabase, steps, i, |steps|);
    assert steps[..|steps|] == steps;
  }

  /** Acquiring a new lease leaves recorded intents as they are but moves the epoch past them: no later lease fits. */
  lemma ReacquiringStrandsIntents(steps: seq<Step>, step: Step, id: Id)
    requires Runs(EmptyDatabase, steps + [step]) && step.AcquireLease?
    requires id in ApplyAll(EmptyDatabase, steps).journal.operations
    requires ApplyAll(EmptyDatabase, steps).journal.operations[id].state.INTENT_RECORDED?
    ensures var next := ApplyAll(EmptyDatabase, steps + [step]);
      && id in next.journal.operations && next.journal.operations[id] == ApplyAll(EmptyDatabase, steps).journal.operations[id]
      && LeaseLive(next.authority) && next.authority.lease.value.grant.epoch > next.journal.operations[id].context.epoch
  {
    RunsThen(EmptyDatabase, steps, step);
    EmptyInv();
    RunKeeps(EmptyDatabase, steps);
    SubmittedEarlier(steps, id);
    Restrands(ApplyAll(EmptyDatabase, steps), step, id);
  }

  lemma Restrands(db: Database, step: Step, id: Id)
    requires AuthorityInv(db.authority) && Enabled(db, step) && step.AcquireLease? && db.authority.lease.Some?
    requires id in db.journal.operations && db.journal.operations[id].state.INTENT_RECORDED?
    ensures var next := Apply(db, step);
      && id in next.journal.operations && next.journal.operations[id] == db.journal.operations[id]
      && LeaseLive(next.authority) && next.authority.lease.value.grant.epoch > db.authority.lease.value.grant.epoch
  {
    AuthorityTheorems.StepAdvances(db, step);
  }

  // ----- what a tick and a reconciliation do -----

  /**
   A tick of a dispatched operation commits its effect if and only if the
   deadline has not passed, the lease is live, and the operation was submitted
   under that very epoch, boot and incarnation.
   */
  lemma TickExecutesIff(db: Database, id: Id, witnessId: Id)
    requires AuthorityInv(db.authority) && JournalInv(db.journal, db.authority)
    requires id in db.journal.operations && db.journal.operations[id].state.MAY_HAVE_BEEN_DISPATCHED?
    ensures id in db.journal.queue
    ensures var op := db.journal.operations[id];
      var w := EffectWitnessFor(id, op, db.journal.queue[id], witnessId);
      TickOutcome(db, id, witnessId, NoFault) == Say(TickCommits(id, w, op.payload), Answer(Status.SETTLED))
      <==> && db.authority.clock < op.ticketExpiresTick && LeaseLive(db.authority)
           && var g := db.authority.lease.value.grant;
           && op.context.epoch == g.epoch && op.context.holder.boot == g.holder.boot
           && op.context.holder.incarnation == g.holder.incarnation
  {
    assert OperationInv(db.journal, db.authority, id);
  }

  /**
   An operation queued with a foreign ticket is not quarantined by a tick: until
   its deadline passes or the authority rotates each tick refuses it and changes
   nothing.
   */
  lemma ForeignTicketIsRefused(db: Database, id: Id, witnessId: Id, armed: FaultPoint)
    requires AuthorityInv(db.authority) && JournalInv(db.journal, db.authority)
    requires id in db.journal.operations && db.journal.operations[id].state.MAY_HAVE_BEEN_DISPATCHED?
    requires db.authority.clock < db.journal.operations[id].ticketExpiresTick
    ensures TickOutcome(db, id, witnessId, armed) == Fail(Stale(LeaseSubject)) <==>
      var op, g := db.journal.operations[id], db.authority.lease.value.grant;
      || op.context.epoch != g.epoch || op.context.holder.boot != g.holder.boot
      || op.context.holder.incarnation != g.holder.incarnation
  {
    assert OperationInv(db.journal, db.authority, id);
  }

  /**
   An admitted dispatch issues a ticket of the presented lease.  The ticket fits
   the operation if and only if that lease has the epoch, boot and incarnation
   the operation was submitted under; the dispatch itself does not ask.
   */
  lemma TicketFitsIff(db: Database, lease: LeaseDocument, operation: OperationRef, ticketId: Id)
    requires CheckLease(db.authority, lease).None? && db.authority.lease.Some? && db.authority.fence.Some?
    requires ValidContext(operation.context) && !RefContradicts(db.journal, operation)
    requires operation.id in db.journal.operations && db.journal.operations[operation.id].state.INTENT_RECORDED?
    requires operation.id !in db.journal.queue && |db.journal.receipts| < MAX_RECEIPTS
    ensures var grant, op := db.authority.lease.value.grant, db.journal.operations[operation.id];
      var ticket := IssuedTicket(grant, lease, db.authority.fence.value.fenceId, operation, ticketId);
      && DispatchOutcome(db, lease, operation, ticketId, NoFault).steps == [AdmitOperation(operation.id, ticket, grant.expiresTick)]
      && (CheckTicket(ticket, operation.id, op.payload, op.context).None? <==>
            && lease.epoch == op.context.epoch && lease.holder.boot == op.context.holder.boot
            && lease.holder.incarnation == op.context.holder.incarnation)
  {
  }

  /** Reconciliation resolves exactly the uncertain operations whose effect is on record. */
  lemma ReconcilesIff(db: Database, operation: OperationRef, strategy: Strategy, fence: FenceDocument)
    requires JournalInv(db.journal, db.authority) && CheckFence(db.authority, fence).None?
    requires ValidContext(operation.context) && !RefContradicts(db.journal, operation)
    ensures ReconcileOutcome(db, operation, strategy, fence)
         == Say([ReconcileOperation(operation.id, strategy)], Answer(Status.RECONCILED))
      <==> && operation.id in db.journal.operations && db.journal.operations[operation.id].state.UNKNOWN?
           && operation.id in db.journal.effects && strategy.RECEIPT_LOOKUP?
    ensures ReconcileOutcome(db, operation, strategy, fence).result.Ok?
  {
    if operation.id in db.journal.operations {
      assert OperationInv(db.journal, db.authority, operation.id);
    }
  }

  /** Right after a restart no queued operation can be executed. */
  lemma ReopenLeavesNothingExecutable(db: Database, id: Id, witnessId: Id, armed: FaultPoint)
    ensures id in Apply(db, Reopen).journal.queue && id in Apply(db, Reopen).journal.operations ==>
      !Apply(db, Reopen).journal.operations[id].state.MAY_HAVE_BEEN_DISPATCHED?
    ensures forall step :: step in TickOutcome(Apply(db, Reopen), id, witnessId, armed).steps ==> !step.RecordEffect?
  {
  }
}
