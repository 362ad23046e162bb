/**
 * The durable-execution protocol: any number of drivers (pkg/engine/engine.go:96-400) and recovery
 * passes (404-465) interleaving over one store. A step is one store call, one executor call or one
 * completion-hook call; between any two of them a driver or a pass may die.
 */
module Protocol {
  import opened Prelude
  import opened Charts
  import opened Stores

  // ---------------------------------------------------------------- drivers

  /** What an executor returned. */
  datatype Result = Result(event: string, output: Payload, suspend: bool, wakeAt: Option<nat>)

  /** The answer to one loop iteration: registry miss, executor error, or a result. Nothing else is assumed of it. */
  datatype Reply = Unregistered | Fails(text: string, invalidInput: bool) | Returns(result: Result)

  datatype Resume = Resume(signal: string, data: Payload)

  /** Where a driver stands between two steps. */
  datatype Pc =
    | Deciding                                              // top of the loop
    | Saving                                                // moved to the next state, not yet persisted
    | Closing(outcome: Outcome, cause: Option<Cause>)       // about to close its execution
    | Hooking(cause: Option<Cause>)                         // final status persisted, hook not yet called
    | Releasing                                             // got an invalid-input error back, about to reload
    | ReleaseClosing(reloaded: InstanceRecord)              // reloaded, about to write the claim back
    | Finished
    | Crashed

  /**
   * A driver's local state. The last two fields are history: the suspended row that was claimed
   * (none for a drive begun by Start) and the states this drive has been in. No step reads them.
   */
  datatype Driver = Driver(
    inst: InstanceRecord,
    resume: Option<Resume>,
    first: bool,
    pc: Pc,
    origin: Option<InstanceRecord>,
    visited: set<string>)

  /** Files a non-empty map under a key; an empty one leaves the payload alone. */
  function File(p: Payload, key: string, data: Payload): Payload {
    if data == map[] then p else p[key := Object(data)]
  }

  function Failing(d: Driver, cause: Cause): Driver {
    d.(inst := d.inst.(status := Failed), pc := Closing(OutcomeFailed, Some(cause)))
  }

  /** One iteration of the engine loop, up to its store call. */
  function Decide(d: Driver, reply: Reply): Driver {
    match Lookup(d.inst.chartDef, d.inst.current)
    case None => Failing(d, StateNotFound)
    case Some(st) =>
      if st.terminal then d.(inst := d.inst.(status := Done), pc := Closing(OutcomeDone, None))
      else match reply
        case Unregistered => Failing(d, NotRegistered)
        case Fails(text, invalid) =>
          if d.first && d.resume.Some? && invalid then d.(pc := Releasing)
          else Failing(d, ExecutorError(text, invalid))
        case Returns(res) =>
          var filed := d.inst.(payload := File(d.inst.payload, st.name, res.output));
          if res.suspend then
            if st.signals == [] && res.wakeAt.None? then Failing(d, Unwakeable)
            else d.(inst := filed.(status := Suspended, wakeOn := st.signals, wakeAt := res.wakeAt),
                    pc := Closing(OutcomeSuspended, None))
          else match Resolve(st.transitions, res.event)
            case None => Failing(d.(inst := filed), NoTransition(res.event))
            case Some(next) =>
              d.(inst := filed.(current := next, wakeOn := [], wakeAt := None), pc := Saving, visited := d.visited + {next})
  }

  predicate InvalidInput(cause: Option<Cause>) {
    cause.Some? && cause.value.ExecutorError? && cause.value.invalidInput
  }

  // ---------------------------------------------------------------- recovery passes

  /** Which branch of the pass an execution falls into. */
  datatype Duty = JustClose | MarkFailed | RollBack

  datatype PassPc =
    | Fetching                                                      // between two crashed executions
    | Searching(x: Execution, inst: InstanceRecord)                 // loaded, about to look for a checkpoint
    | Writing(x: Execution, inst: InstanceRecord, duty: Duty)       // about to close the crashed execution
    | Announcing(x: Execution)                                      // marked failed, hook not yet called

  datatype Pass = Pass(queue: seq<Execution>, pc: PassPc, recovered: nat)

  predicate Active(p: Pass) {
    p.queue != [] || !p.pc.Fetching?
  }

  function CrashCause(duty: Duty): Cause {
    match duty
    case JustClose => ProcessDied
    case MarkFailed => DiedBeforeFirstPark
    case RollBack => DiedAndRolledBack
  }

  // ---------------------------------------------------------------- the whole system

  datatype Closer = ByDriver(e: string) | ByPass(r: string)

  /**
   * Store, clock, drivers by execution id, recovery passes, and the completion-hook calls made so far.
   * The remaining fields are history that no step reads: the execution that owns each running instance,
   * the execution at which each instance last parked, who wrote a final status, the instances whose hook
   * call was lost to a crash, and the payload each instance was started with.
   */
  datatype State = State(
    store: Store,
    clock: nat,
    drivers: map<string, Driver>,
    passes: map<string, Pass>,
    hooks: multiset<string>,
    owner: map<string, string>,
    parks: map<string, string>,
    closer: map<string, Closer>,
    lost: set<string>,
    born: map<string, Payload>)

  const Initial: State := State(Store(map[], map[]), 0, map[], map[], multiset{}, map[], map[], map[], {}, map[])

  datatype Action =
    | Start(id: string, chart: ChartDef, payload: Payload, e: string)
    | Signal(id: string, signal: string, data: Payload, e: string, delivery: Option<string>)
    | Execute(e: string, reply: Reply)
    | SaveStep(e: string)
    | CloseStep(e: string)
    | HookStep(e: string)
    | ReleaseLoad(e: string)
    | ReleaseClose(e: string)
    | Die(e: string)
    | Scan(r: string, before: nat, order: seq<string>)
    | PassLoad(r: string)
    | PassSearch(r: string, at: string)
    | PassClose(r: string)
    | PassHook(r: string)
    | PassDie(r: string)
    | Tick(d: nat)

  function FreshRow(id: string, chart: ChartDef, payload: Payload): InstanceRecord {
    InstanceRecord(id, chart.id, chart.version, chart, chart.initial, "", payload, Running, [], None, 0, 0, 0)
  }

  function DoStart(s: State, id: string, chart: ChartDef, payload: Payload, e: string): State {
    match StartIn(s.store, FreshRow(id, chart, payload), NewExecution(e, id, OnStart, None), s.clock + 1)
    case Refused(_) => s
    case Admitted(st, row) =>
      s.(store := st, clock := s.clock + 1,
         drivers := s.drivers[e := Driver(row, None, true, Deciding, None, {chart.initial})],
         owner := s.owner[id := e], born := s.born[id := payload])
  }

  /** The claimed copy, with the signal's data filed under the state it was parked in. */
  function Woken(row: InstanceRecord, data: Payload): InstanceRecord {
    row.(payload := File(row.payload, row.current, data))
  }

  function DoSignal(s: State, id: string, signal: string, data: Payload, e: string, delivery: Option<string>): State {
    match ClaimIn(s.store, id, signal, NewExecution(e, id, OnSignal(signal), delivery), s.clock + 1)
    case Refused(_) => s
    case Admitted(st, row) =>
      s.(store := st, clock := s.clock + 1,
         drivers := s.drivers[e := Driver(Woken(row, data), Some(Resume(signal, data)), true, Deciding,
                                          Some(s.store.instances[id]), {row.current})],
         owner := s.owner[id := e])
  }

  function DoExecute(s: State, e: string, reply: Reply): State {
    if e in s.drivers && s.drivers[e].pc.Deciding? then s.(drivers := s.drivers[e := Decide(s.drivers[e], reply)])
    else s
  }

  function DoSave(s: State, e: string): State {
    if e in s.drivers && s.drivers[e].pc.Saving? then
      var d := s.drivers[e];
      s.(store := SaveIn(s.store, d.inst, e, s.clock + 1), clock := s.clock + 1,
         drivers := s.drivers[e := d.(inst := Stamp(d.inst, s.clock + 1), first := false, pc := Deciding)])
    else s
  }

  function Disown(s: State, i: string, e: string): map<string, string> {
    if i in s.owner && s.owner[i] == e then s.owner - {i} else s.owner
  }

  /** A driver closes execution `e` with row `i`, and moves on as `d`. */
  function CloseBy(s: State, e: string, i: InstanceRecord, outcome: Outcome, cause: Option<Cause>, d: Driver): State {
    s.(store := CloseIn(s.store, i, e, outcome, cause, s.clock + 1), clock := s.clock + 1,
       drivers := s.drivers[e := d],
       owner := Disown(s, i.id, e),
       parks := if outcome.OutcomeSuspended? then s.parks[i.id := e] else s.parks,
       closer := if outcome.OutcomeSuspended? then s.closer else s.closer[i.id := ByDriver(e)])
  }

  function DoClose(s: State, e: string): State {
    if e in s.drivers && s.drivers[e].pc.Closing? then
      var d := s.drivers[e];
      var pc := if d.pc.outcome.OutcomeSuspended? then Finished else Hooking(d.pc.cause);
      CloseBy(s, e, d.inst, d.pc.outcome, d.pc.cause, d.(inst := Stamp(d.inst, s.clock + 1), pc := pc))
    else s
  }

  function DoHook(s: State, e: string): State {
    if e in s.drivers && s.drivers[e].pc.Hooking? then
      var d := s.drivers[e];
      s.(hooks := s.hooks + multiset{d.inst.id},
         drivers := s.drivers[e := d.(pc := if d.resume.Some? && InvalidInput(d.pc.cause) then Releasing else Finished)])
    else s
  }

  function DoReleaseLoad(s: State, e: string): State {
    if e in s.drivers && s.drivers[e].pc.Releasing? then
      var d := s.drivers[e];
      var id := d.inst.id;
      var pc := if id in s.store.instances && s.store.instances[id].status == Running
                then ReleaseClosing(s.store.instances[id].(status := Suspended)) else Finished;
      s.(drivers := s.drivers[e := d.(pc := pc)])
    else s
  }

  function DoReleaseClose(s: State, e: string): State {
    if e in s.drivers && s.drivers[e].pc.ReleaseClosing? then
      var d := s.drivers[e];
      CloseBy(s, e, d.pc.reloaded, OutcomeSuspended, None, d.(pc := Finished))
    else s
  }

  function DoDie(s: State, e: string): State {
    if e in s.drivers && !s.drivers[e].pc.Finished? then
      s.(drivers := s.drivers[e := s.drivers[e].(pc := Crashed)],
         lost := if s.drivers[e].pc.Hooking? then s.lost + {s.drivers[e].inst.id} else s.lost)
    else s
  }

  function DoScan(s: State, r: string, before: nat, order: seq<string>): State {
    if (r in s.passes ==> !Active(s.passes[r])) && Enumerates(order, Expired(s.store, before)) then
      var found := seq(|order|, k requires 0 <= k < |order| && order[k] in s.store.executions => s.store.executions[order[k]]);
      s.(passes := s.passes[r := Pass(found, Fetching, 0)])
    else s
  }

  function DoPassLoad(s: State, r: string): State {
    if r in s.passes && s.passes[r].pc.Fetching? && s.passes[r].queue != [] then
      var p := s.passes[r];
      var x := p.queue[0];
      var pc := if x.instanceId !in s.store.instances then Fetching
                else
                  var i := s.store.instances[x.instanceId];
                  if i.status != Running then Writing(x, i, JustClose) else Searching(x, i);
      s.(passes := s.passes[r := p.(queue := p.queue[1..], pc := pc)])
    else s
  }

  /** `at` is the checkpoint the store's search returned; any execution that started last will do. */
  function DoPassSearch(s: State, r: string, at: string): State {
    if r in s.passes && s.passes[r].pc.Searching? then
      var p := s.passes[r];
      var i := p.pc.inst;
      if NeverParked(s.store, i.id) then
        s.(passes := s.passes[r := p.(pc := Writing(p.pc.x, i.(status := Failed), MarkFailed))])
      else if LastPark(s.store, i.id, at) then
        var cp := s.store.executions[at];
        var back := i.(status := Suspended, current := cp.suspendedAtState, wakeOn := cp.suspendedWakeOn, wakeAt := None);
        s.(passes := s.passes[r := p.(pc := Writing(p.pc.x, back, RollBack))])
      else s
    else s
  }

  function DoPassClose(s: State, r: string): State {
    if r in s.passes && s.passes[r].pc.Writing? then
      var p := s.passes[r];
      var x := p.pc.x;
      s.(store := CloseIn(s.store, p.pc.inst, x.id, OutcomeCrashed, Some(CrashCause(p.pc.duty)), s.clock + 1), clock := s.clock + 1,
         owner := Disown(s, p.pc.inst.id, x.id),
         closer := if p.pc.duty.MarkFailed? then s.closer[p.pc.inst.id := ByPass(r)] else s.closer,
         passes := s.passes[r := p.(pc := if p.pc.duty.MarkFailed? then Announcing(x) else Fetching,
                                    recovered := if p.pc.duty.RollBack? then p.recovered + 1 else p.recovered)])
    else s
  }

  function DoPassHook(s: State, r: string): State {
    if r in s.passes && s.passes[r].pc.Announcing? then
      var p := s.passes[r];
      s.(hooks := s.hooks + multiset{p.pc.x.instanceId},
         passes := s.passes[r := p.(pc := Fetching, recovered := p.recovered + 1)])
    else s
  }

  function DoPassDie(s: State, r: string): State {
    if r in s.passes then
      s.(passes := s.passes - {r},
         lost := if s.passes[r].pc.Announcing? then s.lost + {s.passes[r].pc.x.instanceId} else s.lost)
    else s
  }

  /** The successor state; an action that is not enabled changes nothing. */
  function Next(s: State, a: Action): State {
    match a
    case Start(id, chart, payload, e) => DoStart(s, id, chart, payload, e)
    case Signal(id, signal, data, e, delivery) => DoSignal(s, id, signal, data, e, delivery)
    case Execute(e, reply) => DoExecute(s, e, reply)
    case SaveStep(e) => DoSave(s, e)
    case CloseStep(e) => DoClose(s, e)
    case HookStep(e) => DoHook(s, e)
    case ReleaseLoad(e) => DoReleaseLoad(s, e)
    case ReleaseClose(e) => DoReleaseClose(s, e)
    case Die(e) => DoDie(s, e)
    case Scan(r, before, order) => DoScan(s, r, before, order)
    case PassLoad(r) => DoPassLoad(s, r)
    case PassSearch(r, at) => DoPassSearch(s, r, at)
    case PassClose(r) => DoPassClose(s, r)
    case PassHook(r) => DoPassHook(s, r)
    case PassDie(r) => DoPassDie(s, r)
    case Tick(d) => s.(clock := s.clock + d)
  }

  /** The state a sequence of actions leads to. */
  function Run(s: State, acts: seq<Action>): State
    decreases |acts|, 1
  {
    if acts == [] then s else AfterLast(s, acts)
  }

  /** The last action, applied to the state the earlier ones lead to. */
  function AfterLast(s: State, acts: seq<Action>): State
    requires acts != []
    decreases |acts|, 0
  {
    Next(Run(s, acts[..|acts| - 1]), acts[|acts| - 1])
  }

  // ---------------------------------------------------------------- what the code relies on without checking

  /** An expired lease means the driver is dead. */
  ghost predicate LeaseMeansDead(s: State, before: nat) {
    forall e :: e in Expired(s.store, before) ==> e in s.drivers && s.drivers[e].pc.Crashed?
  }

  /** No recovery pass is under way. */
  ghost predicate NoPassActive(s: State) {
    forall r :: r in s.passes ==> !Active(s.passes[r])
  }

  /**
   * Charts passed to Start have been validated; a scan happens only while no other pass is under way and
   * finds only dead drivers' executions. The clock advances with every write by construction.
   */
  ghost predicate Legal(s: State, a: Action) {
    match a
    case Start(_, chart, _, _) => WellFormed(chart)
    case Scan(_, before, _) => LeaseMeansDead(s, before) && NoPassActive(s)
    case _ => true
  }

  ghost predicate LegalRun(s: State, acts: seq<Action>)
    decreases |acts|
  {
    acts == [] || (LegalRun(s, acts[..|acts| - 1]) && Legal(Run(s, acts[..|acts| - 1]), acts[|acts| - 1]))
  }
}
