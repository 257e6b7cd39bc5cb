/**
 The open database of one fixture process: one field per table, updated in
 place.  A transaction works on a copy and replaces the tables when it commits;
 dropping the copy is the rollback.  The ghost log records every commit, that is
 every point a crash can fall between.
 */
module HostStore {
  import opened Wrappers
  import opened Identity
  import opened HostRecords
  import opened HostCommits
  import opened HostReplies

  class FaultController {
    var point: FaultPoint
    var fired: bool

    constructor (armed: FaultPoint)
      ensures point == armed && !fired
    {
      point, fired := armed, false;
    }

    /** The fault still waiting to fire. */
    function Armed(): FaultPoint
      reads this
    {
      if fired then NoFault else point
    }

    method At(reached: FaultPoint) returns (action: Option<ResponseAction>)
      modifies this
      ensures point == old(point)
      ensures action == if old(Armed()) == reached then FaultAction(reached) else None
      ensures fired == (old(fired) || old(point) == reached)
    {
      if fired || point != reached { return None; }
      fired := true;
      return FaultAction(reached);
    }
  }

  // ----- statements the transactions share -----

  /** UPDATE lease_history SET revoked=1 for the row of the current lease. */
  function RevokeHistoryOfLease(a: Authority): Authority {
    if a.lease.None? then a else a.(history := RevokeRow(a.history, a.lease.value.grant.leaseId))
  }

  /** UPDATE lease SET revoked=1. */
  function RevokeLeaseRow(a: Authority): Authority {
    if a.lease.None? then a
    else a.(lease := Some(a.lease.value.(grant := a.lease.value.grant.(revoked := true))))
  }

  /** UPDATE runtime_operations SET status='UNKNOWN' for everything in flight. */
  function AbandonRuntime(r: Runtime): Runtime {
    r.(operations := map id | id in r.operations ::
         if InFlight(r.operations[id]) then r.operations[id].(status := RuntimeStatus.UNKNOWN) else r.operations[id])
  }

  /** DELETE FROM runtime_queue what is UNKNOWN. */
  function DropRuntimeQueue(r: Runtime): Runtime {
    r.(queue := set id | id in r.queue && !(id in r.operations && r.operations[id].status.UNKNOWN?))
  }

  /** UPDATE operations SET state='UNKNOWN' for everything dispatched. */
  function AbandonOperations(j: Journal): Journal {
    j.(operations := map id | id in j.operations ::
         if j.operations[id].state.MAY_HAVE_BEEN_DISPATCHED? then QuarantinedRow(j.operations[id]) else j.operations[id])
  }

  /** DELETE FROM queue what is UNKNOWN. */
  function DropQueue(j: Journal): Journal {
    j.(queue := map id | id in j.queue && !(id in j.operations && j.operations[id].state.UNKNOWN?) :: j.queue[id])
  }

  lemma ApplyOne(db: Database, step: Step)
    ensures ApplyAll(db, [step]) == Apply(db, step)
  {
    assert [step][..0] == [];
  }

  lemma {:induction false} ApplyMore(db: Database, steps: seq<Step>, step: Step)
    ensures ApplyAll(db, steps + [step]) == Apply(ApplyAll(db, steps), step)
  {
    assert (steps + [step])[..|steps|] == steps;
  }

  class DurableHost {
    var fence: Option<FenceRow>
    var lease: Option<LeaseRow>
    var leaseHistory: map<Id, HistoryRow>
    var clock: int
    var operations: map<Id, OperationRow>
    var queue: map<Id, Ticket>
    var effects: map<Id, EffectRow>
    var receipts: map<Id, Receipt>
    var runtimeSessions: map<Id, Session>
    var runtimeOperations: map<Id, RuntimeOperation>
    var runtimeQueue: set<Id>
    ghost var committed: seq<Step>

    function Tables(): Database
      reads this
    {
      Database(Authority(fence, lease, leaseHistory, clock),
               Journal(operations, queue, effects, receipts),
               Runtime(runtimeSessions, runtimeOperations, runtimeQueue))
    }

    /** What a handler leaves behind: the commits of its specification, in order, and its answer. */
    ghost predicate Did(before: Database, log: seq<Step>, outcome: Outcome,
                        result: Result<Reply, FixtureError>, action: ResponseAction)
      reads this
    {
      && Tables() == ApplyAll(before, outcome.steps) && committed == log + outcome.steps
      && result == outcome.result && action == outcome.action
    }

    method Commit(tx: Database, ghost step: Step)
      modifies this
      ensures Tables() == tx && committed == old(committed) + [step]
    {
      fence, lease, leaseHistory, clock :=
        tx.authority.fence, tx.authority.lease, tx.authority.history, tx.authority.clock;
      operations, queue, effects, receipts :=
        tx.journal.operations, tx.journal.queue, tx.journal.effects, tx.journal.receipts;
      runtimeSessions, runtimeOperations, runtimeQueue :=
        tx.runtime.sessions, tx.runtime.operations, tx.runtime.queue;
      committed := committed + [step];
    }

    /** `DurableHost::open`: the recovery transaction on the tables found on disk. */
    constructor Open(disk: Database)
      ensures Tables() == Apply(disk, Reopen) && committed == [Reopen]
    {
      fence, lease, leaseHistory, clock :=
        disk.authority.fence, disk.authority.lease, disk.authority.history, disk.authority.clock;
      operations, queue, effects, receipts :=
        disk.journal.operations, disk.journal.queue, disk.journal.effects, disk.journal.receipts;
      runtimeSessions, runtimeOperations, runtimeQueue :=
        disk.runtime.sessions, disk.runtime.operations, disk.runtime.queue;
      committed := [];
      new;
      var tx := Tables();
      tx := tx.(authority := ArchiveLease(tx.authority));
      if tx.authority.fence.Some? {
        var row := tx.authority.fence.value;
        tx := tx.(authority := tx.authority.(fence := Some(row.(
          epochCounter := Larger(row.epochCounter, MaxEpoch(tx.authority.history))))));
      }
      tx := tx.(authority := RevokeHistoryOfLease(tx.authority));
      tx := tx.(authority := RevokeLeaseRow(tx.authority));
      tx := tx.(runtime := AbandonRuntime(tx.runtime));
      tx := tx.(runtime := DropRuntimeQueue(tx.runtime));
      tx := tx.(journal := AbandonOperations(tx.journal));
      tx := tx.(journal := DropQueue(tx.journal));
      if tx.authority.fence.Some? {
        tx := tx.(authority := tx.authority.(fence := Some(tx.authority.fence.value.(state := RESTART_REQUIRED))));
      }
      Commit(tx, Reopen);
    }
  }
}
