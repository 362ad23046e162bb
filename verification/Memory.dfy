/**
 * The in-process store (pkg/store/store.go:100-338). Each method runs under the store's lock, so it
 * is one atomic step; each is proved to do exactly what the function of the same name in Stores says.
 */
module Memories {
  import opened Prelude
  import opened Charts
  import opened Stores

  /** A caller's instance: the engine mutates its fields in place, the store only ever keeps copies. */
  class Instance {
    var id: string
    var chartId: string
    var chartVersion: string
    var chartDef: ChartDef
    var current: string
    var businessState: string
    var payload: Payload
    var status: Status
    var wakeOn: seq<string>
    var wakeAt: Option<nat>
    var version: nat
    var createdAt: nat
    var updatedAt: nat

    /** The copy a store keeps of this object. */
    function Record(): InstanceRecord
      reads this
    {
      InstanceRecord(id, chartId, chartVersion, chartDef, current, businessState, payload, status, wakeOn, wakeAt,
                     version, createdAt, updatedAt)
    }

    /** A fresh object holding a copy of the row. */
    constructor (r: InstanceRecord)
      ensures Record() == r
    {
      id, chartId, chartVersion, chartDef := r.id, r.chartId, r.chartVersion, r.chartDef;
      current, businessState, payload, status := r.current, r.businessState, r.payload, r.status;
      wakeOn, wakeAt, version, createdAt, updatedAt := r.wakeOn, r.wakeAt, r.version, r.createdAt, r.updatedAt;
    }
  }

  class Memory {
    var instances: map<string, InstanceRecord>
    var executions: map<string, Execution>
    var clock: nat

    constructor ()
      ensures Contents() == Store(map[], map[]) && clock == 0
    {
      instances, executions, clock := map[], map[], 0;
    }

    function Contents(): Store
      reads this
    {
      Store(instances, executions)
    }

    /** A reading of the wall clock, strictly later than the one before it. */
    method Now() returns (now: nat)
      modifies this`clock
      ensures now == clock == old(clock) + 1
    {
      clock := clock + 1;
      now := clock;
    }

    method StampCaller(i: Instance, now: nat)
      modifies i`createdAt, i`updatedAt, i`version
      ensures i.Record() == Stamp(old(i.Record()), now)
    {
      if i.createdAt == 0 { i.createdAt := now; }
      i.updatedAt := now;
      i.version := i.version + 1;
    }

    method Save(i: Instance, execId: string)
      modifies this, i
      ensures clock == old(clock) + 1
      ensures Contents() == SaveIn(old(Contents()), old(i.Record()), execId, clock)
      ensures i.Record() == Stamp(old(i.Record()), clock)
      ensures i.Record() == old(i.Record()).(createdAt := i.createdAt, updatedAt := clock, version := old(i.version) + 1)
      ensures i.createdAt == if old(i.createdAt) == 0 then clock else old(i.createdAt)
      ensures instances == old(instances)[i.id := i.Record()] && executions.Keys == old(executions).Keys
      ensures forall e :: e in executions ==>
                executions[e] == old(executions)[e].(heartbeatAt := if e == execId then clock else old(executions)[e].heartbeatAt)
    {
      var now := Now();
      StampCaller(i, now);
      instances := instances[i.id := i.Record()];
      if execId in executions {
        executions := executions[execId := executions[execId].(heartbeatAt := now)];
      }
    }

    method Load(id: string) returns (i: Instance?)
      ensures i == null <==> id !in instances
      ensures i != null ==> fresh(i) && i.Record() == instances[id]
    {
      if id !in instances { return null; }
      i := new Instance(instances[id]);
    }

    /** Scan for an execution already carrying this delivery id. */
    method SeenBefore(delivery: Option<string>) returns (seen: bool)
      ensures seen == DeliverySeen(executions, delivery)
    {
      if delivery.None? { return false; }
      var left := executions.Keys;
      while left != {}
        invariant left <= executions.Keys
        invariant forall e :: e in executions && e !in left ==> executions[e].deliveryId != delivery
        decreases left
      {
        var e :| e in left;
        if executions[e].deliveryId == delivery { return true; }
        left := left - {e};
      }
      return false;
    }

    /** The instance is suspended and waits on the signal. */
    predicate Waiting(id: string, signal: string)
      reads this
    {
      id in instances && instances[id].status == Suspended && signal in instances[id].wakeOn
    }

    /**
     * Refused for the first of these that applies: no such instance, not waiting on the signal, execution id taken,
     * delivery id taken. A refusal changes nothing. Otherwise the row moves to running and the execution is opened.
     */
    method Claim(id: string, signal: string, x: Execution) returns (i: Instance?, err: Option<StoreError>)
      modifies this
      ensures err == Some(NotFound) <==> id !in old(instances)
      ensures err == Some(NotWaiting) <==>
              id in old(instances) && (old(instances)[id].status != Suspended || signal !in old(instances)[id].wakeOn)
      ensures err == Some(DuplicateExecution) <==> old(Waiting(id, signal)) && x.id in old(executions)
      ensures err == Some(DuplicateDelivery) <==>
              old(Waiting(id, signal)) && x.id !in old(executions) && x.deliveryId.Some?
              && exists e :: e in old(executions) && old(executions)[e].deliveryId == x.deliveryId
      ensures err != Some(DuplicateInstance) && (err.None? <==> i != null)
      ensures err.Some? ==> instances == old(instances) && executions == old(executions)
      ensures err.None? ==>
                && instances == old(instances)[id := old(instances)[id].(
                                  status := Running, version := old(instances)[id].version + 1, updatedAt := clock)]
                && executions == old(executions)[x.id := x.(startedAt := clock, heartbeatAt := clock)]
                && i.Record() == instances[id]
      ensures match ClaimIn(old(Contents()), id, signal, x, old(clock) + 1)
              case Refused(e) => i == null && err == Some(e) && Contents() == old(Contents()) && clock == old(clock)
              case Admitted(st, row) =>
                i != null && fresh(i) && err == None && i.Record() == row && Contents() == st && clock == old(clock) + 1
    {
      if id !in instances { return null, Some(NotFound); }
      if instances[id].status != Suspended || signal !in instances[id].wakeOn { return null, Some(NotWaiting); }
      if x.id in executions { return null, Some(DuplicateExecution); }
      var seen := SeenBefore(x.deliveryId);
      if seen { return null, Some(DuplicateDelivery); }
      var now := Now();
      var held := instances[id];
      instances := instances[id := held.(status := Running, version := held.version + 1, updatedAt := now)];
      executions := executions[x.id := x.(startedAt := now, heartbeatAt := now)];
      i := new Instance(instances[id]);
      err := None;
    }

    method StartInstance(i: Instance, x: Execution) returns (err: Option<StoreError>)
      modifies this, i
      ensures err == Some(DuplicateInstance) <==> old(i.id) in old(instances)
      ensures err == Some(DuplicateExecution) <==> old(i.id) !in old(instances) && x.id in old(executions)
      ensures err == Some(DuplicateDelivery) <==>
              old(i.id) !in old(instances) && x.id !in old(executions) && x.deliveryId.Some?
              && exists e :: e in old(executions) && old(executions)[e].deliveryId == x.deliveryId
      ensures err != Some(NotFound) && err != Some(NotWaiting)
      ensures err.Some? ==> instances == old(instances) && executions == old(executions)
      ensures err.None? ==>
                && i.Record() == old(i.Record()).(createdAt := i.createdAt, updatedAt := clock, version := 1)
                && i.createdAt == (if old(i.createdAt) == 0 then clock else old(i.createdAt))
                && instances == old(instances)[i.id := i.Record()]
                && executions == old(executions)[x.id := x.(startedAt := clock, heartbeatAt := clock)]
      ensures match StartIn(old(Contents()), old(i.Record()), x, old(clock) + 1)
              case Refused(e) =>
                err == Some(e) && Contents() == old(Contents()) && clock == old(clock) && i.Record() == old(i.Record())
              case Admitted(st, row) => err == None && i.Record() == row && Contents() == st && clock == old(clock) + 1
    {
      if i.id in instances { return Some(DuplicateInstance); }
      if x.id in executions { return Some(DuplicateExecution); }
      var seen := SeenBefore(x.deliveryId);
      if seen { return Some(DuplicateDelivery); }
      var now := Now();
      if i.createdAt == 0 { i.createdAt := now; }
      i.updatedAt := now;
      i.version := 1;
      instances := instances[i.id := i.Record()];
      executions := executions[x.id := x.(startedAt := now, heartbeatAt := now)];
      err := None;
    }

    method CloseExecution(i: Instance, execId: string, outcome: Outcome, cause: Option<Cause>)
      modifies this, i
      ensures clock == old(clock) + 1
      ensures Contents() == CloseIn(old(Contents()), old(i.Record()), execId, outcome, cause, clock)
      ensures i.Record() == Stamp(old(i.Record()), clock)
      ensures i.Record() == old(i.Record()).(createdAt := i.createdAt, updatedAt := clock, version := old(i.version) + 1)
      ensures i.createdAt == if old(i.createdAt) == 0 then clock else old(i.createdAt)
      ensures instances == old(instances)[i.id := i.Record()] && executions.Keys == old(executions).Keys
      ensures forall e :: e in executions && e != execId ==> executions[e] == old(executions)[e]
      ensures execId in executions ==>
                var x, was := executions[execId], old(executions)[execId];
                && x.outcome == Some(outcome) && x.finishedAt == Some(clock) && x.heartbeatAt == clock
                && (if outcome.OutcomeSuspended? then x.suspendedAtState == i.current && x.suspendedWakeOn == i.wakeOn
                    else x.suspendedAtState == was.suspendedAtState && x.suspendedWakeOn == was.suspendedWakeOn)
                && (if cause.Some? then x.error == cause else x.error == was.error)
                && x.id == was.id && x.instanceId == was.instanceId && x.trigger == was.trigger && x.deliveryId == was.deliveryId
                && x.startedAt == was.startedAt
    {
      var now := Now();
      StampCaller(i, now);
      instances := instances[i.id := i.Record()];
      if execId in executions {
        var x := executions[execId].(finishedAt := Some(now), outcome := Some(outcome));
        if outcome == OutcomeSuspended {
          x := x.(suspendedAtState := i.current, suspendedWakeOn := i.wakeOn);
        }
        if cause.Some? {
          x := x.(error := cause);
        }
        executions := executions[execId := x.(heartbeatAt := now)];
      }
    }

    /** Open executions with an expired lease, once each, in no particular order: all of them, or `limit` if it is positive. */
    method FindCrashedExecutions(before: nat, limit: nat) returns (out: seq<Execution>, ghost order: seq<string>)
      ensures |out| == |order| && Distinct(order)
      ensures forall k :: 0 <= k < |out| ==> order[k] in executions && out[k] == executions[order[k]]
      ensures forall x :: x in out ==> x in executions.Values && x.outcome.None? && x.heartbeatAt < before
      ensures limit > 0 ==> |out| <= limit
      ensures limit == 0 || |out| < limit ==> Enumerates(order, Expired(Contents(), before))
    {
      out, order := [], [];
      var left := executions.Keys;
      while left != {}
        invariant left <= executions.Keys
        invariant |out| == |order| && Distinct(order) && (limit > 0 ==> |out| < limit)
        invariant forall k :: 0 <= k < |order| ==> order[k] in Expired(Contents(), before) - left && out[k] == executions[order[k]]
        invariant forall e :: e in Expired(Contents(), before) - left ==> e in order
        decreases left
      {
        var e :| e in left;
        left := left - {e};
        if executions[e].outcome.None? && executions[e].heartbeatAt < before {
          out, order := out + [executions[e]], order + [e];
          if limit > 0 && |out| >= limit { break; }
        }
      }
    }

    /** The suspended execution of the instance that started last, if it ever parked. */
    method FindLastCheckpoint(instanceId: string) returns (best: Option<Execution>, ghost at: string)
      ensures best.None? <==> NeverParked(Contents(), instanceId)
      ensures best.Some? ==> LastPark(Contents(), instanceId, at) && best.value == executions[at]
    {
      best, at := None, "";
      var left := executions.Keys;
      while left != {}
        invariant left <= executions.Keys
        invariant best.None? ==> forall e :: e in executions && e !in left ==> !Parked(Contents(), instanceId, e)
        invariant best.Some? ==> Parked(Contents(), instanceId, at) && best.value == executions[at]
        invariant best.Some? ==> forall e :: e in executions && e !in left && Parked(Contents(), instanceId, e)
                                   ==> executions[e].startedAt <= executions[at].startedAt
        decreases left
      {
        var e :| e in left;
        left := left - {e};
        var x := executions[e];
        if x.instanceId == instanceId && x.outcome == Some(OutcomeSuspended) {
          if best.None? || x.startedAt > best.value.startedAt {
            best, at := Some(x), e;
          }
        }
      }
    }
  }
}
