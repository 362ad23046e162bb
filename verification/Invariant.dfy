/**
 * What every reachable state of the protocol satisfies. Three views of one state: each instance row,
 * each execution row with its driver, and the recovery pass; plus the two tables' cross references.
 */
module Invariant {
  import opened Prelude
  import opened Charts
  import opened Stores
  import opened Protocol

  predicate Final(st: Status) {
    st.Done? || st.Failed?
  }

  ghost predicate SamePin(a: InstanceRecord, b: InstanceRecord) {
    a.id == b.id && a.chartId == b.chartId && a.chartVersion == b.chartVersion && a.chartDef == b.chartDef
    && a.businessState == b.businessState && a.createdAt == b.createdAt
  }

  ghost predicate TerminalAt(c: ChartDef, name: string) {
    Lookup(c, name).Some? && Lookup(c, name).value.terminal
  }

  /** A wake set that something can wake: the state's own signals, with at least one of them or a deadline. */
  ghost predicate Wakeable(r: InstanceRecord) {
    r.wakeOn == SignalsAt(r.chartDef, r.current) && (r.wakeOn != [] || r.wakeAt.Some?)
  }

  /** A defined state that a walk from the initial state reaches. */
  ghost predicate Reachable(c: ChartDef, name: string) {
    name in Names(c.states) && Reach(c, c.initial, name)
  }

  /** `r` is pinned to a valid chart and stands at a reachable state of it. */
  ghost predicate OnChart(r: InstanceRecord) {
    && WellFormed(r.chartDef)
    && r.chartId == r.chartDef.id && r.chartVersion == r.chartDef.version
    && Reachable(r.chartDef, r.current)
  }

  // ---------------------------------------------------------------- instance rows

  ghost predicate RowOK(s: State, i: string)
    requires i in s.store.instances
  {
    var r := s.store.instances[i];
    && r.id == i
    && OnChart(r)
    && 1 <= r.version
    && 1 <= r.createdAt <= r.updatedAt <= s.clock
    && i in s.born && AgreeOutside(r.payload, s.born[i], Names(r.chartDef.states))
    && (r.status.Running? <==> i in s.owner)
    && (Final(r.status) <==> i in s.closer)
    && CloserOK(s, i)
    && (i in s.parks ==> Parked(s.store, i, s.parks[i]))
    && (r.status.Suspended? ==> ParkedAt(s, i, r.current, r.wakeOn) && Wakeable(r))
    && (r.status.Done? ==> TerminalAt(r.chartDef, r.current))
  }

  /** The driver that wrote the final status was driving this instance. */
  ghost predicate CloserOK(s: State, i: string) {
    i in s.closer && s.closer[i].ByDriver? ==>
      s.closer[i].e in s.store.executions && s.store.executions[s.closer[i].e].instanceId == i
  }

  /** The instance's last park recorded exactly this state and wake set. */
  ghost predicate ParkedAt(s: State, i: string, current: string, wakeOn: seq<string>) {
    && i in s.parks && s.parks[i] in s.store.executions
    && s.store.executions[s.parks[i]].suspendedAtState == current
    && s.store.executions[s.parks[i]].suspendedWakeOn == wakeOn
  }

  /** The state a drive set out from. */
  ghost function Home(d: Driver, c: ChartDef): string {
    if d.origin.Some? then d.origin.value.current else c.initial
  }

  /** The payload a drive set out with. */
  ghost function Base(s: State, i: string, d: Driver): Payload
    requires i in s.born
  {
    if d.origin.Some? then d.origin.value.payload else s.born[i]
  }

  /** `r` is the claimed row `o`: nothing but the status and the write stamps has changed. */
  ghost predicate JustClaimed(o: InstanceRecord, r: InstanceRecord) {
    r == o.(status := Running, version := o.version + 1, updatedAt := r.updatedAt)
  }

  /** A drive that began with a claim began at the last park, on a signal that park was waiting for. */
  ghost predicate OriginOK(s: State, i: string, d: Driver, r: InstanceRecord)
    requires i in s.born
  {
    && (d.origin.Some? <==> d.resume.Some?)
    && (d.origin.Some? <==> i in s.parks)
    && (d.origin.Some? ==>
          var o := d.origin.value;
          && o.status.Suspended? && SamePin(o, r)
          && ParkedAt(s, i, o.current, o.wakeOn) && Wakeable(o) && OnChart(o)
          && d.resume.value.signal in o.wakeOn
          && AgreeOutside(o.payload, s.born[i], Names(r.chartDef.states)))
  }

  /** The stored row of a running instance, relative to the drive that owns it. */
  ghost predicate TrackOK(s: State, i: string, d: Driver, r: InstanceRecord)
    requires i in s.born
  {
    && Reach(r.chartDef, Home(d, r.chartDef), r.current)
    && d.visited <= Names(r.chartDef.states)
    && AgreeOutside(r.payload, Base(s, i, d), d.visited)
  }

  /** A live driver's working copy: same pin, same version as the stored row, and on the same walk. */
  ghost predicate CopyOK(s: State, i: string, d: Driver, r: InstanceRecord)
    requires i in s.born
  {
    && SamePin(d.inst, r) && d.inst.version == r.version
    && d.inst.current in d.visited
    && Reach(r.chartDef, Home(d, r.chartDef), d.inst.current)
    && AgreeOutside(d.inst.payload, Base(s, i, d), d.visited)
  }

  /** Nothing has been written since the drive began. */
  ghost predicate UntouchedSoFar(d: Driver, r: InstanceRecord) {
    d.first && d.origin.Some? && JustClaimed(d.origin.value, r)
  }

  ghost predicate DeciderOK(d: Driver, r: InstanceRecord)
    requires d.origin.Some? <==> d.resume.Some?
  {
    && d.inst.status.Running?
    && (if d.first && d.origin.Some?
        then UntouchedSoFar(d, r) && d.inst == Woken(r, d.resume.value.data)
        else d.inst == r)
  }

  ghost predicate ClosingOK(inst: InstanceRecord, outcome: Outcome, cause: Option<Cause>) {
    match outcome
    case OutcomeSuspended => inst.status.Suspended? && Wakeable(inst) && cause.None?
    case OutcomeDone => inst.status.Done? && TerminalAt(inst.chartDef, inst.current) && cause.None?
    case OutcomeFailed => inst.status.Failed? && cause.Some? && cause.value != StateNotFound
    case OutcomeCrashed => false
  }

  /** A resumed drive that fails on invalid input does so past its first step; on the first step it is released instead. */
  predicate LateIfInvalid(d: Driver, cause: Option<Cause>) {
    InvalidInput(cause) && d.resume.Some? ==> !d.first
  }

  /** The driver that owns a running instance. */
  ghost predicate OwnerOK(s: State, i: string, d: Driver, r: InstanceRecord)
    requires i in s.born
  {
    && OriginOK(s, i, d, r)
    && TrackOK(s, i, d, r)
    && match d.pc
       case Deciding => CopyOK(s, i, d, r) && DeciderOK(d, r)
       case Saving => CopyOK(s, i, d, r) && d.inst.status.Running?
       case Closing(outcome, cause) => CopyOK(s, i, d, r) && ClosingOK(d.inst, outcome, cause) && LateIfInvalid(d, cause)
       case Releasing => UntouchedSoFar(d, r)
       case ReleaseClosing(row) => UntouchedSoFar(d, r) && row == r.(status := Suspended)
       case Crashed => true
       case _ => false
  }

  ghost predicate RunningOK(s: State, i: string)
    requires i in s.store.instances
  {
    i in s.owner ==>
      var e := s.owner[i];
      && e in s.store.executions && e in s.drivers && i in s.born
      && s.store.executions[e].instanceId == i
      && s.store.executions[e].heartbeatAt == s.store.instances[i].updatedAt
      && OwnerOK(s, i, s.drivers[e], s.store.instances[i])
  }

  ghost predicate HookPending(s: State, i: string) {
    i in s.closer
    && match s.closer[i]
       case ByDriver(e) => e in s.drivers && s.drivers[e].pc.Hooking?
       case ByPass(r) => r in s.passes && s.passes[r].pc.Announcing? && s.passes[r].pc.x.instanceId == i
  }

  ghost function Count(b: bool): nat {
    if b then 1 else 0
  }

  /** Conservation of completion notices: for a final instance, exactly one of delivered, pending, lost to a crash. */
  ghost predicate HookOK(s: State, i: string)
    requires i in s.store.instances
  {
    if Final(s.store.instances[i].status)
    then s.hooks[i] + Count(HookPending(s, i)) + Count(i in s.lost) == 1
    else s.hooks[i] == 0 && i !in s.lost
  }

  ghost predicate InstanceOK(s: State, i: string)
    requires i in s.store.instances
  {
    RowOK(s, i) && RunningOK(s, i) && HookOK(s, i)
  }

  // ---------------------------------------------------------------- execution rows

  ghost predicate Owns(s: State, e: string, i: string) {
    i in s.owner && s.owner[i] == e
  }

  /** A driver whose execution is closed can only be delivering the completion hook, or looking at a failed instance. */
  ghost predicate RetiredOK(s: State, e: string, i: string)
    requires e in s.drivers && i in s.store.instances
  {
    match s.drivers[e].pc
    case Finished => true
    case Crashed => true
    case Hooking(cause) => i in s.closer && s.closer[i] == ByDriver(e) && (cause.Some? ==> s.store.instances[i].status.Failed?)
                             && LateIfInvalid(s.drivers[e], cause)
    case Releasing => s.store.instances[i].status.Failed? && !s.drivers[e].first
    case _ => false
  }

  /** A park is recorded at a reachable state, with exactly that state's signals. */
  ghost predicate ParkRecord(c: ChartDef, x: Execution) {
    Reachable(c, x.suspendedAtState) && x.suspendedWakeOn == SignalsAt(c, x.suspendedAtState)
  }

  ghost predicate ClosedOK(s: State, e: string, x: Execution)
    requires e in s.drivers && x.instanceId in s.store.instances && x.outcome.Some?
  {
    var i := x.instanceId;
    && (x.error.Some? <==> x.outcome.value.OutcomeFailed? || x.outcome.value.OutcomeCrashed?)
    && x.error != Some(StateNotFound)
    && (i in s.owner && s.owner[i] in s.store.executions ==> x.startedAt < s.store.executions[s.owner[i]].startedAt)
    && (x.outcome.value.OutcomeSuspended? ==> ParkRecord(s.store.instances[i].chartDef, x))
    && (x.outcome.value.OutcomeSuspended? ==>
          i in s.parks
          && (e == s.parks[i] || (s.parks[i] in s.store.executions && x.startedAt < s.store.executions[s.parks[i]].startedAt)))
    && RetiredOK(s, e, i)
  }

  ghost predicate ExecutionOK(s: State, e: string)
    requires e in s.store.executions && e in s.drivers
  {
    var x := s.store.executions[e];
    && x.id == e && x.instanceId in s.store.instances && s.drivers[e].inst.id == x.instanceId
    && x.startedAt <= x.heartbeatAt <= s.clock
    && (x.outcome.None? <==> Owns(s, e, x.instanceId))
    && (x.outcome.None? <==> x.finishedAt.None?)
    && (x.outcome.None? ==> x.error.None?)
    && (s.drivers[e].resume.None? <==> x.trigger == OnStart)
    && (s.drivers[e].resume.Some? ==> x.trigger == OnSignal(s.drivers[e].resume.value.signal))
    && (x.outcome.Some? ==> ClosedOK(s, e, x))
  }

  /** No two executions carry the same delivery id. */
  ghost predicate DeliveriesUnique(st: Store) {
    forall e, f :: e in st.executions && f in st.executions && st.executions[e].deliveryId.Some?
                 && st.executions[e].deliveryId == st.executions[f].deliveryId
                 ==> e == f
  }

  // ---------------------------------------------------------------- the recovery pass

  /** A crashed driver's execution, still open, as a pass has it in hand. */
  ghost predicate Victim(s: State, x: Execution) {
    && x.id in s.store.executions && x.id in s.drivers
    && s.store.executions[x.id].instanceId == x.instanceId
    && s.store.executions[x.id].outcome.None?
    && s.drivers[x.id].pc.Crashed?
  }

  /** What the pass is about to write for the crashed execution's instance. */
  ghost predicate WriteOK(s: State, i: InstanceRecord, r: InstanceRecord, duty: Duty) {
    match duty
    case JustClose => false
    case MarkFailed => r.id !in s.parks && i == r.(status := Failed)
    case RollBack =>
      ParkedAt(s, r.id, i.current, i.wakeOn)
      && i == r.(status := Suspended, current := i.current, wakeOn := i.wakeOn, wakeAt := None)
  }

  ghost predicate PassPcOK(s: State, r: string, pc: PassPc) {
    match pc
    case Fetching => true
    case Searching(x, i) => Victim(s, x) && x.instanceId in s.store.instances && i == s.store.instances[x.instanceId]
    case Writing(x, i, duty) =>
      Victim(s, x) && x.instanceId in s.store.instances && WriteOK(s, i, s.store.instances[x.instanceId], duty)
    case Announcing(x) => x.instanceId in s.closer && s.closer[x.instanceId] == ByPass(r)
  }

  predicate Holds(pc: PassPc, e: string) {
    (pc.Searching? || pc.Writing?) && pc.x.id == e
  }

  ghost predicate PassOK(s: State, r: string)
    requires r in s.passes
  {
    var p := s.passes[r];
    && (forall k :: 0 <= k < |p.queue| ==> Victim(s, p.queue[k]) && !Holds(p.pc, p.queue[k].id))
    && (forall a, b :: 0 <= a < b < |p.queue| ==> p.queue[a].id != p.queue[b].id)
    && PassPcOK(s, r, p.pc)
  }

  ghost predicate PassesOK(s: State) {
    && (forall r {:trigger PassOK(s, r)} :: r in s.passes ==> PassOK(s, r))
    && (forall r, q :: r in s.passes && q in s.passes && Active(s.passes[r]) && Active(s.passes[q]) ==> r == q)
  }

  // ---------------------------------------------------------------- all together

  ghost predicate Domains(s: State) {
    && s.drivers.Keys == s.store.executions.Keys
    && s.born.Keys == s.store.instances.Keys
    && s.owner.Keys <= s.store.instances.Keys
    && s.parks.Keys <= s.store.instances.Keys
    && s.closer.Keys <= s.store.instances.Keys
    && s.lost <= s.store.instances.Keys
    && (forall i :: i in s.hooks ==> i in s.store.instances)
  }

  ghost predicate InstancesOK(s: State) {
    forall i {:trigger InstanceOK(s, i)} :: i in s.store.instances ==> InstanceOK(s, i)
  }

  ghost predicate ExecutionsOK(s: State)
    requires Domains(s)
  {
    forall e {:trigger ExecutionOK(s, e)} :: e in s.store.executions ==> ExecutionOK(s, e)
  }

  ghost predicate Inv(s: State) {
    Domains(s) && InstancesOK(s) && ExecutionsOK(s) && DeliveriesUnique(s.store) && PassesOK(s)
  }
}
