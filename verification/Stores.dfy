/**
 * The persistence contract (pkg/store/store.go): the two tables as values, and what each
 * store call does to them as a function. The class Memory is proved against these functions,
 * and the protocol is built from them.
 */
module Stores {
  import opened Prelude
  import opened Charts

  datatype Status = Running | Suspended | Done | Failed

  /** One row of the instance table, and equally the working copy a driver holds. */
  datatype InstanceRecord = InstanceRecord(
    id: string,
    chartId: string,
    chartVersion: string,
    chartDef: ChartDef,
    current: string,
    businessState: string,
    payload: Payload,
    status: Status,
    wakeOn: seq<string>,
    wakeAt: Option<nat>,
    version: nat,
    createdAt: nat,   // 0 is the zero time: not created yet
    updatedAt: nat)

  datatype Outcome = OutcomeSuspended | OutcomeDone | OutcomeFailed | OutcomeCrashed

  datatype Trigger = OnStart | OnSignal(signal: string)

  /** The errors an execution record can carry, in place of their texts. */
  datatype Cause =
    | StateNotFound
    | NotRegistered
    | ExecutorError(text: string, invalidInput: bool)
    | Unwakeable
    | NoTransition(event: string)
    | ProcessDied
    | DiedBeforeFirstPark
    | DiedAndRolledBack

  /** One row of the execution table: a single drive of an instance. */
  datatype Execution = Execution(
    id: string,
    instanceId: string,
    trigger: Trigger,
    deliveryId: Option<string>,
    startedAt: nat,
    finishedAt: Option<nat>,
    outcome: Option<Outcome>,
    suspendedAtState: string,
    suspendedWakeOn: seq<string>,
    error: Option<Cause>,
    heartbeatAt: nat)

  /** An execution as the engine hands it to the store, before any field is stamped. */
  function NewExecution(id: string, instanceId: string, trigger: Trigger, delivery: Option<string>): Execution {
    Execution(id, instanceId, trigger, delivery, 0, None, None, "", [], None, 0)
  }

  datatype Store = Store(instances: map<string, InstanceRecord>, executions: map<string, Execution>)

  datatype StoreError = NotFound | NotWaiting | DuplicateInstance | DuplicateExecution | DuplicateDelivery

  /** The two calls that may be refused: a refusal carries no new store, so it changes nothing. */
  datatype Admission = Refused(error: StoreError) | Admitted(store: Store, row: InstanceRecord)

  /** What every write does to the row first: creation time if missing, update time, version. */
  function Stamp(i: InstanceRecord, now: nat): InstanceRecord {
    i.(createdAt := if i.createdAt == 0 then now else i.createdAt, updatedAt := now, version := i.version + 1)
  }

  function SaveIn(st: Store, i: InstanceRecord, execId: string, now: nat): Store {
    Store(
      st.instances[i.id := Stamp(i, now)],
      if execId in st.executions
      then st.executions[execId := st.executions[execId].(heartbeatAt := now)]
      else st.executions)
  }

  /** The execution row as closing leaves it; only a suspension records where the instance parked. */
  function CloseRow(x: Execution, i: InstanceRecord, outcome: Outcome, cause: Option<Cause>, now: nat): Execution {
    x.(finishedAt := Some(now), outcome := Some(outcome), heartbeatAt := now,
       suspendedAtState := if outcome.OutcomeSuspended? then i.current else x.suspendedAtState,
       suspendedWakeOn := if outcome.OutcomeSuspended? then i.wakeOn else x.suspendedWakeOn,
       error := if cause.Some? then cause else x.error)
  }

  function CloseIn(st: Store, i: InstanceRecord, execId: string, outcome: Outcome, cause: Option<Cause>, now: nat): Store {
    Store(
      st.instances[i.id := Stamp(i, now)],
      if execId in st.executions
      then st.executions[execId := CloseRow(st.executions[execId], i, outcome, cause, now)]
      else st.executions)
  }

  predicate DeliverySeen(executions: map<string, Execution>, delivery: Option<string>) {
    delivery.Some? && exists e :: e in executions && executions[e].deliveryId == delivery
  }

  function ClaimIn(st: Store, id: string, signal: string, x: Execution, now: nat): Admission {
    if id !in st.instances then Refused(NotFound)
    else if st.instances[id].status != Suspended || signal !in st.instances[id].wakeOn then Refused(NotWaiting)
    else if x.id in st.executions then Refused(DuplicateExecution)
    else if DeliverySeen(st.executions, x.deliveryId) then Refused(DuplicateDelivery)
    else
      var i := st.instances[id];
      var row := i.(status := Running, version := i.version + 1, updatedAt := now);
      Admitted(Store(st.instances[id := row], st.executions[x.id := x.(startedAt := now, heartbeatAt := now)]), row)
  }

  function StartIn(st: Store, i: InstanceRecord, x: Execution, now: nat): Admission {
    if i.id in st.instances then Refused(DuplicateInstance)
    else if x.id in st.executions then Refused(DuplicateExecution)
    else if DeliverySeen(st.executions, x.deliveryId) then Refused(DuplicateDelivery)
    else
      var row := i.(createdAt := if i.createdAt == 0 then now else i.createdAt, updatedAt := now, version := 1);
      Admitted(Store(st.instances[i.id := row], st.executions[x.id := x.(startedAt := now, heartbeatAt := now)]), row)
  }

  // ---------------------------------------------------------------- what the finders look for

  /** Executions still open whose last heartbeat is older than the threshold. */
  function Expired(st: Store, before: nat): set<string> {
    set e | e in st.executions && st.executions[e].outcome.None? && st.executions[e].heartbeatAt < before
  }

  predicate Parked(st: Store, id: string, e: string) {
    e in st.executions && st.executions[e].instanceId == id && st.executions[e].outcome == Some(OutcomeSuspended)
  }

  /** Some execution of the instance ended suspended, and none that did started later than `e`. */
  predicate LastPark(st: Store, id: string, e: string) {
    Parked(st, id, e) && forall f :: f in st.executions && Parked(st, id, f) ==> st.executions[f].startedAt <= st.executions[e].startedAt
  }

  predicate NeverParked(st: Store, id: string) {
    forall e :: e in st.executions ==> !Parked(st, id, e)
  }

  predicate Enumerates(order: seq<string>, pool: set<string>) {
    Distinct(order) && (forall k :: 0 <= k < |order| ==> order[k] in pool) && (forall e :: e in pool ==> e in order)
  }
}
