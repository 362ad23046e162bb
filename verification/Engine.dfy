/**
 * The engine (pkg/engine/engine.go) as it runs in one process: methods that mutate a working instance, call the
 * store and return. A ghost protocol state is stepped alongside, so each method is proved to be a run of the protocol.
 */
module Engines {
  import opened Prelude
  import opened Charts
  import opened Stores
  import opened Memories
  import opened Protocol
  import opened Invariant
  import opened Preservation
  import opened Steps
  import opened Guarantees
  import opened Writes
  import opened Checkpoints
  import opened Notices
  import opened Drives
  import opened Recovery
  import InteractiveCharts

  /** How a drive ended, as its caller sees it. */
  datatype StepEnd = Rested | Rejected | Broke(cause: Cause) | Died

  /** The error returned wraps the invalid-input error. */
  predicate WrapsInvalid(end: StepEnd) {
    end.Rejected? || (end.Broke? && end.cause.ExecutorError? && end.cause.invalidInput)
  }

  /** From its closing write on, a drive is determined: close, then the hook if the status is final. */
  lemma ClosingEnds(reg: Registry, s: State, e: string, calls: nat, fuel: nat)
    requires e in s.drivers && s.drivers[e].pc.Closing?
    ensures var d := s.drivers[e];
            var t := DoClose(s, e);
            var u := if d.pc.outcome.OutcomeSuspended? then t else DoHook(t, e);
            && Loop(reg, s, e, calls, fuel) == Ran(u, calls)
            && e in u.drivers
            && u.drivers[e].inst.status == d.inst.status
            && u.drivers[e].pc == (if !d.pc.outcome.OutcomeSuspended? && d.resume.Some? && InvalidInput(d.pc.cause) then Releasing else Finished)
  {
    hide CloseIn, Disown;
    var t := DoClose(s, e);
    LoopWrites(reg, s, e, calls, fuel);
    LoopWrites(reg, t, e, calls, fuel);
    LoopWrites(reg, DoHook(t, e), e, calls, fuel);
  }

  /** What the caller is told, against where the driver is left. */
  predicate EndsAs(d: Driver, resume: Option<Resume>, end: StepEnd) {
    match d.pc
    case Finished =>
      && !(resume.Some? && WrapsInvalid(end))
      && (if end.Broke? then d.inst.status.Failed? else end.Rested? && (d.inst.status.Suspended? || d.inst.status.Done?))
    case Releasing => resume.Some? && WrapsInvalid(end)
    case Crashed => end.Died?
    case _ => false
  }

  /** What a caller of Start or SignalInstance gets back: an error from the store, or the end of the drive. */
  datatype CallEnd = Turned(error: StoreError) | Drove(end: StepEnd)

  /** Every stored instance is filed under its own id and pinned to a valid chart. */
  lemma PinnedIsValid(s: State, i: string)
    requires Reached(s) && i in s.store.instances
    ensures s.store.instances[i].id == i && WellFormed(s.store.instances[i].chartDef)
  {
    hide Reached, WellFormed, OwnerOK, HookOK, ExecutionsOK, PassesOK, DeliveriesUnique, ClosedOK, Wakeable, ParkRecord;
    ReachedInv(s);
    assert InstanceOK(s, i);
  }

  lemma SignalReaches(s: State, id: string, signal: string, data: Payload, e: string, delivery: Option<string>)
    requires Reached(s) && NoPassActive(s)
    ensures Reached(DoSignal(s, id, signal, data, e, delivery)) && NoPassActive(DoSignal(s, id, signal, data, e, delivery))
  {
    hide Reached, Leads, ClaimIn, Active;
    LeadsStep(s, Signal(id, signal, data, e, delivery));
    ReachedJoin(s, DoSignal(s, id, signal, data, e, delivery));
  }

  /** What the claim leaves behind. */
  lemma SignalTakes(s: State, id: string, signal: string, data: Payload, e: string, delivery: Option<string>)
    ensures var claim := ClaimIn(s.store, id, signal, NewExecution(e, id, OnSignal(signal), delivery), s.clock + 1);
            var t := DoSignal(s, id, signal, data, e, delivery);
            if claim.Refused? then t == s
            else
              && t.store == claim.store && t.clock == s.clock + 1 && t.hooks == s.hooks && e in t.drivers
              && var d := t.drivers[e];
              && d.inst == Woken(claim.row, data) && d.pc.Deciding? && d.first && d.resume == Some(Resume(signal, data))
  {
    hide ClaimIn, Woken;
  }

  /** A checkpoint search has one possible answer, the one RecoverNext names; and rows are filed under their own ids. */
  ghost predicate SearchIsSettled(s: State) {
    && (forall i, at :: LastPark(s.store, i, at) ==> at == ParkOf(s, i))
    && (forall i :: i in s.store.instances ==> s.store.instances[i].id == i)
  }

  lemma SearchSettles(s: State)
    requires Inv(s)
    ensures SearchIsSettled(s)
  {
    hide Inv, LastPark, NeverParked;
    forall i, at | LastPark(s.store, i, at) ensures at == ParkOf(s, i) { LastParkIsUnique(s, i, at); }
    forall i | i in s.store.instances ensures s.store.instances[i].id == i { RowId(s, i); }
  }

  lemma SettledAt(s: State, i: string, at: string)
    requires SearchIsSettled(s) && LastPark(s.store, i, at)
    ensures at == ParkOf(s, i)
  {
  }

  lemma SearchTakes(s: State, r: string, queue: seq<Execution>, x: Execution, i: InstanceRecord, n: nat, at: string)
    requires r in s.passes && s.passes[r] == Pass(queue, Searching(x, i), n)
    ensures NeverParked(s.store, i.id) ==>
              DoPassSearch(s, r, at) == s.(passes := s.passes[r := Pass(queue, Writing(x, i.(status := Failed), MarkFailed), n)])
    ensures !NeverParked(s.store, i.id) && LastPark(s.store, i.id, at) ==>
              var cp := s.store.executions[at];
              var back := i.(status := Suspended, current := cp.suspendedAtState, wakeOn := cp.suspendedWakeOn, wakeAt := None);
              DoPassSearch(s, r, at) == s.(passes := s.passes[r := Pass(queue, Writing(x, back, RollBack), n)])
  {
    hide NeverParked;
  }

  lemma StillSettled(s: State, t: State, i: string)
    requires SearchIsSettled(s) && t == s.(passes := t.passes)
    ensures SearchIsSettled(t)
    ensures i in t.store.instances ==> t.store.instances[i].id == i
  {
    hide LastPark;
  }

  /** A pass between two executions writes and announces nothing. */
  lemma Skipped(s: State, r: string)
    requires r in s.passes && s.passes[r].pc.Fetching?
    ensures DoPassClose(s, r) == s
  {
  }

  /** A driver at the top of its loop drives a running instance that has been created. */
  lemma DecidingRuns(s: State, e: string)
    requires Reached(s) && e in s.drivers && s.drivers[e].pc.Deciding?
    ensures var i := s.drivers[e].inst.id;
            i in s.store.instances && s.store.instances[i].id == i && s.store.instances[i].status.Running? && s.store.instances[i].createdAt > 0
  {
    hide InstancesOK, ExecutionsOK, PassesOK, DeliveriesUnique, Reached, OwnerOK, OnChart, HookOK, RunningOK;
    ReachedInv(s);
    BusyOwns(s, e);
  }

  /** The release leaves the row and the record of a failed drive as it is. */
  lemma RecordStays(s: State, t: State, e: string, i: string, cause: Cause)
    requires Reached(s) && t == Settle(s, e) && e in s.drivers && i in s.store.instances && s.store.instances[i].status.Failed?
    requires e in s.store.executions ==>
               s.store.executions[e].outcome == Some(OutcomeFailed) && s.store.executions[e].error == Some(cause)
    ensures e in t.store.executions ==>
              t.store.executions[e].outcome == Some(OutcomeFailed) && t.store.executions[e].error == Some(cause)
    ensures i in t.store.instances && t.store.instances[i].status.Failed?
  {
    hide Reached, Leads, Settle, InstancesOK, ExecutionsOK, PassesOK, DeliveriesUnique;
    ReachedInv(s);
    SettleIsRun(s, e);
    LeadsPreserves(s, t);
  }

  lemma StartFolding(reg: Registry, s: State, id: string, c: ChartDef, payload: Payload, e: string, count: nat, fuel: nat)
    requires Reached(s) && fuel >= 1
    ensures InteractiveCharts.FoldBegins(reg, s, StartRun(reg, s, id, c, payload, e, count, fuel).state, id, c, e)
  {
    hide Reached, Inv, StartRun, InteractiveCharts.FoldBegins;
    ReachedInv(s);
    InteractiveCharts.StartFolds(reg, s, id, c, payload, e, count, fuel);
  }

  lemma SignalFolding(reg: Registry, s: State, i: string, call: InteractiveCharts.Call, count: nat, fuel: nat)
    requires Reached(s) && fuel >= 2
    ensures InteractiveCharts.FoldsOn(reg, s, SignalRun(reg, s, i, call.signal, call.data, call.e, call.delivery, count, fuel).state, i, call)
  {
    hide Reached, Inv, SignalRun, InteractiveCharts.FoldsOn;
    ReachedInv(s);
    InteractiveCharts.SignalFolds(reg, s, i, call, count, fuel);
  }

  /** Open, and not heard of for longer than the lease. */
  predicate Overdue(x: Execution, lease: nat, clock: nat) {
    x.outcome.None? && x.heartbeatAt + lease < clock
  }

  predicate HasOverdue(executions: map<string, Execution>, i: string, lease: nat, clock: nat) {
    exists e :: e in executions && executions[e].instanceId == i && Overdue(executions[e], lease, clock)
  }

  lemma OverdueIsExpired(st: Store, lease: nat, clock: nat, before: nat)
    requires before == if clock < lease then 0 else clock - lease
    ensures Expired(st, before) == set e | e in st.executions && Overdue(st.executions[e], lease, clock)
    ensures forall i :: Stale(st, before, i) <==> HasOverdue(st.executions, i, lease, clock)
  {
    forall i ensures Stale(st, before, i) <==> HasOverdue(st.executions, i, lease, clock) {
      if HasOverdue(st.executions, i, lease, clock) {
        var e :| e in st.executions && st.executions[e].instanceId == i && Overdue(st.executions[e], lease, clock);
        assert e in Expired(st, before);
      }
    }
  }

  lemma OverdueIsDead(s: State, lease: nat, clock: nat, before: nat)
    requires before == if clock < lease then 0 else clock - lease
    requires forall e :: e in s.store.executions && Overdue(s.store.executions[e], lease, clock) ==> e in s.drivers && s.drivers[e].pc.Crashed?
    ensures LeaseMeansDead(s, before)
  {
    OverdueIsExpired(s.store, lease, clock, before);
  }

  /** What a pass does, told by the lease and the clock it reads. */
  ghost predicate PassedByLease(s: State, t: State, lease: nat, clock: nat) {
    && t.store.executions.Keys == s.store.executions.Keys && t.store.instances.Keys == s.store.instances.Keys
    && (forall e :: e in s.store.executions ==>
          if Overdue(s.store.executions[e], lease, clock) then
            Struck(s.store.executions[e], t.store.executions[e], !NeverParked(s.store, s.store.executions[e].instanceId))
          else t.store.executions[e] == s.store.executions[e])
    && (forall i :: i in s.store.instances ==>
          && (if HasOverdue(s.store.executions, i, lease, clock) then SetRight(s.store, t.store, i)
              else t.store.instances[i] == s.store.instances[i])
          && t.hooks[i] == s.hooks[i] + if HasOverdue(s.store.executions, i, lease, clock) && NeverParked(s.store, i) then 1 else 0)
    && (forall e :: e in t.store.executions ==> !Overdue(t.store.executions[e], lease, clock))
  }

  lemma PassReadsLease(s: State, r: string, lease: nat, clock: nat, before: nat, order: seq<string>)
    requires Inv(s) && NoPassActive(s) && LeaseMeansDead(s, before) && Enumerates(order, Expired(s.store, before))
    requires before == if clock < lease then 0 else clock - lease
    ensures PassedByLease(s, RecoverAll(s, r, before, order), lease, clock)
  {
    hide Inv, NoPassActive, LeaseMeansDead, Enumerates, NeverParked, SetRight, HasOverdue, Stale, RecoverAll;
    PassIsTotalAndFramed(s, r, before, order);
    OverdueIsExpired(s.store, lease, clock, before);
  }

  // What one iteration decides, case by case.

  lemma DecideUncalled(reg: Registry, d: Driver)
    requires !CallsExecutor(reg, d)
    ensures Decide(d, Unregistered) ==
            (match Lookup(d.inst.chartDef, d.inst.current)
             case None => Failing(d, StateNotFound)
             case Some(st) =>
               if st.terminal then d.(inst := d.inst.(status := Done), pc := Closing(OutcomeDone, None)) else Failing(d, NotRegistered))
  {
  }

  lemma DecideError(d: Driver, st: StateConfig, text: string, invalid: bool)
    requires Lookup(d.inst.chartDef, d.inst.current) == Some(st) && !st.terminal
    ensures Decide(d, Fails(text, invalid)) ==
            if d.first && d.resume.Some? && invalid then d.(pc := Releasing) else Failing(d, ExecutorError(text, invalid))
  {
  }

  lemma DecideResult(d: Driver, st: StateConfig, res: Result)
    requires Lookup(d.inst.chartDef, d.inst.current) == Some(st) && !st.terminal
    ensures var filed := d.inst.(payload := File(d.inst.payload, st.name, res.output));
            var next := Resolve(st.transitions, res.event);
            Decide(d, Returns(res)) ==
            if res.suspend && st.signals == [] && res.wakeAt.None? then Failing(d, Unwakeable)
            else if res.suspend then
              d.(inst := filed.(status := Suspended, wakeOn := st.signals, wakeAt := res.wakeAt), pc := Closing(OutcomeSuspended, None))
            else if next.None? then Failing(d.(inst := filed), NoTransition(res.event))
            else d.(inst := filed.(current := next.value, wakeOn := [], wakeAt := None), pc := Saving, visited := d.visited + {next.value})
  {
  }

  class Engine {
    const store: Memory
    const registry: Registry
    const lease: nat
    var calls: nat
    var completions: multiset<string>
    ghost var world: State

    constructor (registry: Registry, lease: nat)
      ensures Valid() && fresh(store) && world == Initial && this.registry == registry && this.lease == lease
    {
      store := new Memory();
      this.registry, this.lease := registry, lease;
      calls, completions, world := 0, multiset{}, Initial;
      new;
      InitialReached();
    }

    /** The protocol state's store, clock and hook calls are the real ones. */
    ghost predicate Synced()
      reads this, store
    {
      world.store == store.Contents() && world.clock == store.clock && world.hooks == completions
    }

    /** Some legal run of the protocol ends in the engine's state, with no recovery pass under way. */
    ghost predicate Valid()
      reads this, store
    {
      Synced() && Reached(world) && NoPassActive(world)
    }

    /** So what holds after every legal run holds of the engine's own tables and hook calls at any time between calls. */
    lemma Promises(i: string, at: string)
      requires Valid()
      ensures i in store.instances ==> |OpenOf(store.Contents(), i)| == (if store.instances[i].status.Running? then 1 else 0)
      ensures completions[i] <= 1
      ensures completions[i] == 1 ==> i in store.instances && Final(store.instances[i].status)
      ensures i in store.instances && store.instances[i].status.Suspended? ==>
                && !NeverParked(store.Contents(), i)
                && (LastPark(store.Contents(), i, at) ==>
                      store.executions[at].suspendedAtState == store.instances[i].current
                      && store.executions[at].suspendedWakeOn == store.instances[i].wakeOn)
    {
      hide Reached, NeverParked, LastPark;
      if i in store.instances { ExclusiveOwnership(world, i); }
      HookAtMostOnce(world, i);
      SuspendedAgreesWithCheckpoint(world, i, at);
    }

    /** Driver `execId` stands at `pc` with `inst` as its working copy. */
    ghost predicate Driving(inst: Instance, execId: string, pc: Pc)
      reads this, inst
    {
      execId in world.drivers && world.drivers[execId].inst == inst.Record() && world.drivers[execId].pc == pc
    }

    /** The driver takes in what one iteration decided. */
    ghost method Iterate(execId: string, reply: Reply)
      requires Synced() && execId in world.drivers && world.drivers[execId].pc.Deciding?
      modifies this`world
      ensures Synced() && world == DoExecute(old(world), execId, reply)
      ensures execId in world.drivers && world.drivers[execId] == Decide(old(world).drivers[execId], reply)
    {
      hide Decide;
      world := DoExecute(world, execId, reply);
    }

    /** Shows the executor the event: the wake signal and its data on the first step of a resume, else empty. */
    method Call(inst: Instance, execId: string, state: StateConfig, firstStep: bool, resume: Option<Resume>, ghost fuel: nat)
      returns (answer: Answer, ghost shown: Event)
      requires Synced() && Driving(inst, execId, Deciding) && fuel > 0
      requires world.drivers[execId].first == firstStep && world.drivers[execId].resume == resume
      requires Lookup(inst.chartDef, inst.current) == Some(state) && !state.terminal && state.executor in registry
      modifies this`calls, this`world
      ensures Synced() && calls == old(calls) + 1
      ensures answer == registry[state.executor](old(calls), shown)
      ensures shown.payload == inst.payload && shown.config == state.config
      ensures if firstStep && resume.Some? then shown.name == resume.value.signal && shown.data == resume.value.data
              else shown.name == "" && shown.data == map[]
      ensures Loop(registry, old(world), execId, old(calls), fuel) == Loop(registry, world, execId, calls, fuel - 1)
      ensures execId in world.drivers && world.drivers[execId] == Decide(old(world).drivers[execId], ReplyOf(answer))
    {
      hide DoExecute, Decide, Loop, Lookup;
      LoopCalled(registry, world, execId, calls, fuel);
      var ev := if firstStep && resume.Some?
                then Event(resume.value.signal, resume.value.data, inst.payload, state.config)
                else Event("", map[], inst.payload, state.config);
      answer, shown := registry[state.executor](calls, ev), ev;
      calls := calls + 1;
      Iterate(execId, ReplyOf(answer));
    }

    /** The process dies before the executor call. */
    ghost method Perish(execId: string)
      requires Synced() && execId in world.drivers && world.drivers[execId].pc.Deciding?
      requires CallsExecutor(registry, world.drivers[execId])
      modifies this`world
      ensures Synced() && Loop(registry, old(world), execId, calls, 0) == Ran(world, calls)
      ensures execId in world.drivers && world.drivers[execId] == old(world).drivers[execId].(pc := Crashed)
      ensures forall resume :: EndsAs(world.drivers[execId], resume, Died)
    {
      hide Loop;
      LoopCalled(registry, world, execId, calls, 0);
      world := DoDie(world, execId);
    }

    /** The store's row is the caller's copy. */
    ghost predicate Stored(inst: Instance)
      reads store, inst
    {
      inst.id in store.instances && store.instances[inst.id] == inst.Record()
    }

    /** The stored instance is running. */
    ghost predicate RowRuns(id: string)
      reads store
    {
      id in store.instances && store.instances[id].status.Running?
    }

    ghost predicate RowFailed(id: string)
      reads store
    {
      id in store.instances && store.instances[id].status.Failed?
    }

    /** The execution's record says it failed, and why. */
    ghost predicate FailedFor(execId: string, cause: Cause)
      reads store
    {
      execId in store.executions ==> store.executions[execId].outcome == Some(OutcomeFailed) && store.executions[execId].error == Some(cause)
    }

    method FireComplete(inst: Instance, ghost execId: string)
      requires Synced() && execId in world.drivers && world.drivers[execId].pc.Hooking? && world.drivers[execId].inst.id == inst.id
      modifies this`completions, this`world
      ensures Synced() && world == DoHook(old(world), execId)
    {
      completions := completions + multiset{inst.id};
      world := DoHook(world, execId);
    }

    /** The driver's closing write. */
    method Close(inst: Instance, execId: string, outcome: Outcome, cause: Option<Cause>)
      requires Synced() && Driving(inst, execId, Closing(outcome, cause))
      modifies this`world, store, inst
      ensures Synced() && world == DoClose(old(world), execId)
      ensures Driving(inst, execId, if outcome.OutcomeSuspended? then Finished else Hooking(cause))
      ensures inst.Record() == Stamp(old(inst.Record()), store.clock) && Stored(inst) && inst.id == old(inst.id)
      ensures outcome.OutcomeFailed? && cause.Some? ==> FailedFor(execId, cause.value)
    {
      store.CloseExecution(inst, execId, outcome, cause);
      world := DoClose(world, execId);
    }

    /** Marks the instance failed, persists it, and notifies. */
    method Fail(inst: Instance, execId: string, cause: Cause)
      requires Synced() && execId in world.drivers
      requires world.drivers[execId].inst == inst.Record().(status := Failed)
      requires world.drivers[execId].pc == Closing(OutcomeFailed, Some(cause))
      modifies this`world, this`completions, store, inst
      ensures Synced() && world == DoHook(DoClose(old(world), execId), execId)
      ensures execId in world.drivers && world.drivers[execId].inst == inst.Record() && Stored(inst) && inst.id == old(inst.id)
      ensures FailedFor(execId, cause) && inst.status.Failed? && inst.payload == old(inst.payload) && inst.current == old(inst.current)
    {
      inst.status := Failed;
      Close(inst, execId, OutcomeFailed, Some(cause));
      FireComplete(inst, execId);
    }

    /** A terminal state: done, persisted, notified. */
    method Complete(inst: Instance, execId: string)
      requires Synced() && execId in world.drivers
      requires world.drivers[execId].inst == inst.Record().(status := Done)
      requires world.drivers[execId].pc == Closing(OutcomeDone, None)
      modifies this`world, this`completions, store, inst
      ensures Synced() && world == DoHook(DoClose(old(world), execId), execId)
      ensures execId in world.drivers && world.drivers[execId].inst == inst.Record() && Stored(inst) && inst.id == old(inst.id) && inst.status.Done?
    {
      inst.status := Done;
      Close(inst, execId, OutcomeDone, None);
      FireComplete(inst, execId);
    }

    /** Files an output, or a signal's data, under the state's name if there is any. */
    method FileOutput(inst: Instance, key: string, output: Payload)
      modifies inst`payload
      ensures inst.payload == File(old(inst.payload), key, output)
      ensures |output| > 0 ==> key in inst.payload && inst.payload[key] == Object(output)
      ensures forall k :: k != key || |output| == 0 ==> Agree(inst.payload, old(inst.payload), k)
    {
      if |output| > 0 {
        inst.payload := inst.payload[key := Object(output)];
      }
    }

    method Park(inst: Instance, execId: string, state: StateConfig, res: Result)
      requires Synced() && execId in world.drivers
      requires world.drivers[execId].pc == Closing(OutcomeSuspended, None)
      requires world.drivers[execId].inst == inst.Record().(payload := File(inst.payload, state.name, res.output), status := Suspended,
                                                           wakeOn := state.signals, wakeAt := res.wakeAt)
      modifies this`world, store, inst
      ensures Synced() && world == DoClose(old(world), execId)
      ensures execId in world.drivers && world.drivers[execId].inst == inst.Record() && Stored(inst) && inst.id == old(inst.id)
      ensures inst.status.Suspended? && inst.current == old(inst.current) && inst.wakeOn == state.signals && inst.wakeAt == res.wakeAt
      ensures |res.output| > 0 ==> state.name in inst.payload && inst.payload[state.name] == Object(res.output)
      ensures forall k :: k != state.name || |res.output| == 0 ==> Agree(inst.payload, old(inst.payload), k)
    {
      FileOutput(inst, state.name, res.output);
      inst.status := Suspended;
      inst.wakeOn := state.signals;
      inst.wakeAt := res.wakeAt;
      Close(inst, execId, OutcomeSuspended, None);
    }

    /** Moves to the next state and persists it. */
    method Advance(inst: Instance, execId: string, next: string)
      requires Synced() && execId in world.drivers && world.drivers[execId].pc.Saving?
      requires world.drivers[execId].inst == inst.Record().(current := next, wakeOn := [], wakeAt := None)
      modifies this`world, store, inst
      ensures Synced() && world == DoSave(old(world), execId)
      ensures Driving(inst, execId, Deciding) && !world.drivers[execId].first
      ensures world.drivers[execId].resume == old(world).drivers[execId].resume && inst.chartDef == old(inst.chartDef) && inst.id == old(inst.id)
      ensures Stored(inst) && inst.payload == old(inst.payload) && inst.status == old(inst.status)
      ensures inst.current == next && inst.wakeOn == [] && inst.wakeAt == None
    {
      inst.current := next;
      inst.wakeOn := [];
      inst.wakeAt := None;
      store.Save(inst, execId);
      world := DoSave(world, execId);
    }

    /** The branches that reach no executor: unknown state, terminal state, unregistered executor. */
    method StopUncalled(inst: Instance, execId: string, found: Option<StateConfig>, fuel: nat) returns (end: StepEnd)
      requires Synced() && Driving(inst, execId, Deciding)
      requires found == Lookup(inst.chartDef, inst.current)
      requires found.None? || found.value.terminal || found.value.executor !in registry
      modifies this`world, this`completions, store, inst
      ensures Synced() && Loop(registry, old(world), execId, calls, fuel) == Ran(world, calls)
      ensures execId in world.drivers && world.drivers[execId].inst == inst.Record()
      ensures EndsAs(world.drivers[execId], old(world).drivers[execId].resume, end)
      ensures inst.id == old(inst.id) && (end.Rested? || end.Broke? ==> Stored(inst))
      ensures end == (if found.None? then Broke(StateNotFound) else if found.value.terminal then Rested else Broke(NotRegistered))
      ensures if end.Broke? then inst.status.Failed? && FailedFor(execId, end.cause) else inst.status.Done?
    {
      hide Inv, Loop, DoClose, DoHook, DoSave, Decide, Lookup;
      LoopUncalled(registry, world, execId, calls, fuel);
      DecideUncalled(registry, world.drivers[execId]);
      Iterate(execId, Unregistered);
      ClosingEnds(registry, world, execId, calls, fuel);
      if found.None? {
        Fail(inst, execId, StateNotFound);
        return Broke(StateNotFound);
      }
      if found.value.terminal {
        Complete(inst, execId);
        return Rested;
      }
      Fail(inst, execId, NotRegistered);
      return Broke(NotRegistered);
    }

    /** The executor returned an error. */
    method StopOnError(inst: Instance, execId: string, text: string, invalid: bool, rejects: bool, ghost fuel: nat) returns (end: StepEnd)
      requires Synced() && execId in world.drivers
      requires rejects ==> invalid && Driving(inst, execId, Releasing) && world.drivers[execId].resume.Some?
      requires !rejects ==> world.drivers[execId].inst == inst.Record().(status := Failed)
      requires !rejects ==> world.drivers[execId].pc == Closing(OutcomeFailed, Some(ExecutorError(text, invalid)))
      modifies this`world, this`completions, store, inst
      ensures Synced() && Loop(registry, old(world), execId, calls, fuel) == Ran(world, calls)
      ensures execId in world.drivers && world.drivers[execId].inst == inst.Record()
      ensures EndsAs(world.drivers[execId], old(world).drivers[execId].resume, end)
      ensures inst.id == old(inst.id) && (end.Rested? || end.Broke? ==> Stored(inst))
      ensures end == if rejects then Rejected else Broke(ExecutorError(text, invalid))
      ensures !rejects ==> inst.status.Failed? && FailedFor(execId, ExecutorError(text, invalid))
      ensures rejects ==> store.instances == old(store.instances)
    {
      hide Inv, Loop, DoClose, DoHook, DoSave, Decide;
      if rejects {
        LoopWrites(registry, world, execId, calls, fuel);
        return Rejected;
      }
      ClosingEnds(registry, world, execId, calls, fuel);
      Fail(inst, execId, ExecutorError(text, invalid));
      return Broke(ExecutorError(text, invalid));
    }

    /** The executor returned a result: park, fail, or move on (none). */
    method TakeResult(inst: Instance, execId: string, state: StateConfig, res: Result, ghost fuel: nat) returns (stop: Option<StepEnd>)
      requires Synced() && execId in world.drivers
      requires var filed := inst.Record().(payload := File(inst.payload, state.name, res.output));
               var next := Resolve(state.transitions, res.event);
               var d := world.drivers[execId];
               if res.suspend && state.signals == [] && res.wakeAt.None? then
                 d.inst == inst.Record().(status := Failed) && d.pc == Closing(OutcomeFailed, Some(Unwakeable))
               else if res.suspend then
                 d.inst == filed.(status := Suspended, wakeOn := state.signals, wakeAt := res.wakeAt) && d.pc == Closing(OutcomeSuspended, None)
               else if next.None? then
                 d.inst == filed.(status := Failed) && d.pc == Closing(OutcomeFailed, Some(NoTransition(res.event)))
               else d.inst == filed.(current := next.value, wakeOn := [], wakeAt := None) && d.pc == Saving
      modifies this`world, this`completions, store, inst
      ensures Synced() && execId in world.drivers && world.drivers[execId].inst == inst.Record() && inst.id == old(inst.id)
      ensures var resume := old(world).drivers[execId].resume;
              if stop.Some? then
                && Loop(registry, old(world), execId, calls, fuel) == Ran(world, calls)
                && EndsAs(world.drivers[execId], resume, stop.value) && Stored(inst)
              else
                && Loop(registry, old(world), execId, calls, fuel) == Loop(registry, world, execId, calls, fuel)
                && Driving(inst, execId, Deciding) && !world.drivers[execId].first && world.drivers[execId].resume == resume
                && inst.chartDef == old(inst.chartDef) && Stored(inst)
      ensures stop == (if res.suspend then (if state.signals == [] && res.wakeAt.None? then Some(Broke(Unwakeable)) else Some(Rested))
                       else if exists k :: 0 <= k < |state.transitions| && state.transitions[k].on == res.event then None
                       else Some(Broke(NoTransition(res.event))))
      ensures stop.Some? && stop.value.Broke? ==> inst.status.Failed? && FailedFor(execId, stop.value.cause)
      ensures stop == Some(Rested) ==> inst.status.Suspended? && inst.wakeOn == state.signals && inst.wakeAt == res.wakeAt
      ensures stop.None? ==>
                && Some(inst.current) == Resolve(state.transitions, res.event)
                && inst.wakeOn == [] && inst.wakeAt == None && inst.status == old(inst.status)
      ensures (stop.None? || stop == Some(Rested)) && |res.output| > 0 ==>
                state.name in inst.payload && inst.payload[state.name] == Object(res.output)
      ensures stop.None? || stop == Some(Rested) ==>
                forall k :: k != state.name || |res.output| == 0 ==> Agree(inst.payload, old(inst.payload), k)
    {
      hide Inv, Loop, DoClose, DoHook, DoSave, Decide, File, Resolve;
      if res.suspend {
        ClosingEnds(registry, world, execId, calls, fuel);
        if |state.signals| == 0 && res.wakeAt.None? {
          Fail(inst, execId, Unwakeable);
          return Some(Broke(Unwakeable));
        }
        Park(inst, execId, state, res);
        return Some(Rested);
      }
      stop := MoveOn(inst, execId, state, res, fuel);
    }

    /** Files the output and takes the first transition on the event; without one the drive fails. */
    method MoveOn(inst: Instance, execId: string, state: StateConfig, res: Result, ghost fuel: nat) returns (stop: Option<StepEnd>)
      requires Synced() && execId in world.drivers
      requires var filed := inst.Record().(payload := File(inst.payload, state.name, res.output));
               var next := Resolve(state.transitions, res.event);
               var d := world.drivers[execId];
               if next.None? then d.inst == filed.(status := Failed) && d.pc == Closing(OutcomeFailed, Some(NoTransition(res.event)))
               else d.inst == filed.(current := next.value, wakeOn := [], wakeAt := None) && d.pc == Saving
      modifies this`world, this`completions, store, inst
      ensures Synced() && execId in world.drivers && world.drivers[execId].inst == inst.Record() && inst.id == old(inst.id) && Stored(inst)
      ensures var resume := old(world).drivers[execId].resume;
              if stop.Some? then
                Loop(registry, old(world), execId, calls, fuel) == Ran(world, calls) && EndsAs(world.drivers[execId], resume, stop.value)
              else
                && Loop(registry, old(world), execId, calls, fuel) == Loop(registry, world, execId, calls, fuel)
                && Driving(inst, execId, Deciding) && !world.drivers[execId].first && world.drivers[execId].resume == resume
                && inst.chartDef == old(inst.chartDef)
      ensures stop == (if exists k :: 0 <= k < |state.transitions| && state.transitions[k].on == res.event then None
                       else Some(Broke(NoTransition(res.event))))
      ensures stop.Some? ==> inst.status.Failed? && FailedFor(execId, NoTransition(res.event))
      ensures stop.None? ==>
                && Some(inst.current) == Resolve(state.transitions, res.event)
                && inst.wakeOn == [] && inst.wakeAt == None && inst.status == old(inst.status)
      ensures |res.output| > 0 ==> state.name in inst.payload && inst.payload[state.name] == Object(res.output)
      ensures forall k :: k != state.name || |res.output| == 0 ==> Agree(inst.payload, old(inst.payload), k)
    {
      hide Inv, Loop, DoClose, DoHook, DoSave, Decide, File, Resolve;
      ResolveMeansFirst(state.transitions, res.event);
      LoopWrites(registry, world, execId, calls, fuel);
      FileOutput(inst, state.name, res.output);
      var next := ResolveTransition(state, res.event);
      if next.None? {
        ClosingEnds(registry, world, execId, calls, fuel);
        Fail(inst, execId, NoTransition(res.event));
        return Some(Broke(NoTransition(res.event)));
      }
      Advance(inst, execId, next.value);
      return None;
    }

    /** Acts on the executor's answer: some if the drive ends here, none if it goes on. */
    method TakeAnswer(inst: Instance, execId: string, state: StateConfig, answer: Answer, firstStep: bool, resume: Option<Resume>,
                      ghost d: Driver, ghost fuel: nat)
      returns (stop: Option<StepEnd>)
      requires Synced() && execId in world.drivers && world.drivers[execId] == Decide(d, ReplyOf(answer))
      requires d.inst == inst.Record() && d.pc.Deciding? && d.first == firstStep && d.resume == resume
      requires Lookup(inst.chartDef, inst.current) == Some(state) && !state.terminal
      modifies this`world, this`completions, store, inst
      ensures Synced() && execId in world.drivers && world.drivers[execId].inst == inst.Record() && inst.id == old(inst.id)
      ensures if stop.Some? then
                Loop(registry, old(world), execId, calls, fuel) == Ran(world, calls) && EndsAs(world.drivers[execId], resume, stop.value)
                && (stop.value.Rested? || stop.value.Broke? ==> Stored(inst))
              else
                && Loop(registry, old(world), execId, calls, fuel) == Loop(registry, world, execId, calls, fuel)
                && Driving(inst, execId, Deciding) && !world.drivers[execId].first && world.drivers[execId].resume == resume
                && inst.chartDef == old(inst.chartDef) && Stored(inst)
      ensures stop.Some? && stop.value.Broke? ==> inst.status.Failed? && FailedFor(execId, stop.value.cause)
      ensures answer.Error? ==>
                stop == Some(if firstStep && resume.Some? && answer.invalidInput then Rejected
                             else Broke(ExecutorError(answer.text, answer.invalidInput)))
      ensures stop.None? ==> inst.status == old(inst.status)
      ensures stop == Some(Rejected) ==> firstStep && store.instances == old(store.instances)
      ensures stop != Some(Died)
      ensures answer.Ok? && answer.result.suspend ==>
                stop == Some(if state.signals == [] && answer.result.wakeAt.None? then Broke(Unwakeable) else Rested)
      ensures answer.Ok? && !answer.result.suspend ==>
                stop == if exists k :: 0 <= k < |state.transitions| && state.transitions[k].on == answer.result.event then None
                        else Some(Broke(NoTransition(answer.result.event)))
      ensures answer.Ok? && |answer.result.output| > 0 && (stop.None? || stop == Some(Rested)) ==>
                state.name in inst.payload && inst.payload[state.name] == Object(answer.result.output)
    {
      hide Loop, Decide, Lookup, EndsAs, Synced, Resolve, File;
      match answer
      case Error(text, invalid) =>
        DecideError(d, state, text, invalid);
        var end := StopOnError(inst, execId, text, invalid, firstStep && resume.Some? && invalid, fuel);
        stop := Some(end);
      case Ok(res) =>
        DecideResult(d, state, res);
        stop := TakeResult(inst, execId, state, res, fuel);
    }

    /**
     * The engine loop. It runs until the instance rests, or an error stops it, or the process dies at an executor
     * call beyond the `fuel` it survives.
     */
    method StepWith(c: Chart, inst: Instance, execId: string, resume: Option<Resume>, fuel: nat) returns (end: StepEnd)
      requires Synced() && Driving(inst, execId, Deciding)
      requires world.drivers[execId].first && world.drivers[execId].resume == resume
      requires c.Indexed() && WellFormed(c.def) && c.def == inst.chartDef
      requires inst.status.Running? && RowRuns(inst.id)
      modifies this, store, inst
      ensures Synced()
      ensures Loop(registry, old(world), execId, old(calls), fuel) == Ran(world, calls)
      ensures execId in world.drivers && world.drivers[execId].inst == inst.Record()
      ensures EndsAs(world.drivers[execId], resume, end)
      ensures inst.id == old(inst.id) && (end.Rested? || end.Broke? ==> Stored(inst))
      ensures end.Broke? ==> inst.status.Failed? && FailedFor(execId, end.cause)
      ensures end.Died? ==> RowRuns(inst.id)
      ensures end.Rejected? ==> store.instances == old(store.instances)
    {
      hide Inv, Loop, DoClose, DoHook, DoSave, DoExecute, WellFormed, Decide, Synced, Lookup, EndsAs, FailedFor, c.Indexed;
      var firstStep := true;
      var left := fuel;
      while true
        invariant Synced() && Driving(inst, execId, Deciding)
        invariant world.drivers[execId].first == firstStep && world.drivers[execId].resume == resume
        invariant c.Indexed() && c.def == inst.chartDef && inst.id == old(inst.id)
        invariant inst.status.Running? && RowRuns(inst.id) && (firstStep ==> store.instances == old(store.instances))
        invariant Loop(registry, world, execId, calls, left) == Loop(registry, old(world), execId, old(calls), fuel)
        decreases left
      {
        var found := c.State(inst.current);
        if found.None? || found.value.terminal || found.value.executor !in registry {
          end := StopUncalled(inst, execId, found, left);
          return;
        }
        var state := found.value;
        if left == 0 {
          Perish(execId);
          return Died;
        }
        ghost var d := world.drivers[execId];
        var answer, shown := Call(inst, execId, state, firstStep, resume, left);
        left := left - 1;
        var stop := TakeAnswer(inst, execId, state, answer, firstStep, resume, d, left);
        if stop.Some? { return stop.value; }
        firstStep := false;
      }
    }

    /** Rebuilds the chart an instance is pinned to. */
    method ChartFor(inst: Instance) returns (c: Chart?)
      ensures c == null <==> !WellFormed(inst.chartDef)
      ensures c != null ==> fresh(c) && c.def == inst.chartDef && c.Indexed()
    {
      var chart := new Chart(inst.chartDef);
      var err := chart.Validate();
      c := if err.Some? then null else chart;
    }

    /** Creates and stores the instance for this drive. */
    method Launch(c: Chart, id: string, payload: Payload, execId: string) returns (inst: Instance, err: Option<StoreError>)
      requires Synced()
      modifies this`world, store
      ensures Synced() && world == DoStart(old(world), id, c.def, payload, execId) && fresh(inst)
      ensures var start := StartIn(old(store.Contents()), FreshRow(id, c.def, payload),
                           NewExecution(execId, id, OnStart, None), old(store.clock) + 1);
              if start.Refused? then err == Some(start.error) && world == old(world)
              else err == None && inst.chartDef == c.def && Driving(inst, execId, Deciding)
                   && world.drivers[execId].first && world.drivers[execId].resume == None
      ensures err == (if id in old(store.instances) then Some(DuplicateInstance)
                      else if execId in old(store.executions) then Some(DuplicateExecution) else None)
      ensures err.None? ==>
                && inst.Record() == InstanceRecord(id, c.def.id, c.def.version, c.def, c.def.initial, "", payload, Running, [], None, 1,
                                                   store.clock, store.clock)
                && store.instances == old(store.instances)[id := inst.Record()]
                && store.executions == old(store.executions)[execId := Execution(execId, id, OnStart, None, store.clock, None, None, "", [],
                                                                                 None, store.clock)]
    {
      hide DeliverySeen;
      inst := new Instance(FreshRow(id, c.def, payload));
      err := store.StartInstance(inst, NewExecution(execId, id, OnStart, None));
      world := DoStart(world, id, c.def, payload, execId);
    }

    /** Creates an instance running the chart and drives it until it rests, breaks or its process dies. */
    method Start(c: Chart, id: string, payload: Payload, execId: string, fuel: nat) returns (inst: Instance, end: CallEnd)
      requires Valid() && c.Indexed() && WellFormed(c.def)
      modifies this, store
      ensures Valid() && Keeps(old(world), world)
      ensures Ran(world, calls) == StartRun(registry, old(world), id, c.def, payload, execId, old(calls), fuel)
      ensures end.Turned? <==> id in old(store.instances) || execId in old(store.executions)
      ensures end.Turned? ==> end.error == if id in old(store.instances) then DuplicateInstance else DuplicateExecution
      ensures end.Turned? ==> store.Contents() == old(store.Contents()) && completions == old(completions) && calls == old(calls)
      ensures end.Drove? ==> inst.id == id && execId in world.drivers && EndsAs(world.drivers[execId], None, end.end)
      ensures end.Drove? && end.end.Rested? ==> Stored(inst) && (inst.status.Suspended? || inst.status.Done?)
      ensures end.Drove? && end.end.Broke? ==> Stored(inst) && inst.status.Failed? && FailedFor(execId, end.end.cause)
      ensures end.Drove? && end.end.Died? ==> RowRuns(id)
      ensures fuel >= 1 ==> InteractiveCharts.FoldBegins(registry, old(world), world, id, c.def, execId)
    {
      hide Reached, Leads, Loop, WellFormed, Keeps, StartIn, DoStart, InteractiveCharts.FoldBegins;
      ghost var end' := StartRun(registry, world, id, c.def, payload, execId, calls, fuel).state;
      StartIsRun(registry, world, id, c.def, payload, execId, calls, fuel);
      if fuel >= 1 { StartFolding(registry, world, id, c.def, payload, execId, calls, fuel); }
      LeadsPreserves(world, end');
      ReachedJoin(world, end');
      var err;
      inst, err := Launch(c, id, payload, execId);
      if err.Some? { return inst, Turned(err.value); }
      var stop := StepWith(c, inst, execId, None, fuel);
      end := Drove(stop);
    }

    /** The row is as it was when claimed, suspended again; its version counts the claim and the release. */
    twostate predicate GivenBack(id: string, writes: nat)
      reads store
    {
      && id in old(store.instances) && id in store.instances
      && store.instances[id] == old(store.instances)[id].(status := Suspended, version := old(store.instances)[id].version + writes,
                                                          updatedAt := store.instances[id].updatedAt)
    }

    /** Reloads the persisted instance and, if it is still claimed, writes the claim back. */
    method ReleaseToSuspended(id: string, execId: string)
      requires Synced() && execId in world.drivers && world.drivers[execId].pc.Releasing? && world.drivers[execId].inst.id == id
      modifies this`world, store
      ensures Synced() && world == Settle(old(world), execId)
      ensures id in old(store.instances) && old(store.instances)[id].status.Running? && old(store.instances)[id].id == id
              && old(store.instances)[id].createdAt > 0
              ==> GivenBack(id, 1)
      ensures id !in old(store.instances) || !old(store.instances)[id].status.Running? ==> store.Contents() == old(store.Contents())
    {
      hide CloseIn, Disown;
      world := DoReleaseLoad(world, execId);
      var kept := store.Load(id);
      if kept == null || kept.status != Running { return; }
      kept.status := Suspended;
      store.CloseExecution(kept, execId, OutcomeSuspended, None);
      world := DoReleaseClose(world, execId);
    }

    /** Claims the instance for this drive, and applies the wake in memory only. */
    method Wake(id: string, signal: string, data: Payload, x: Execution) returns (inst: Instance?, err: Option<StoreError>)
      requires Valid() && x == NewExecution(x.id, id, OnSignal(signal), x.deliveryId)
      modifies this`world, store
      ensures Valid() && world == DoSignal(old(world), id, signal, data, x.id, x.deliveryId)
      ensures var claim := ClaimIn(old(store.Contents()), id, signal, x, old(store.clock) + 1);
              if claim.Refused? then inst == null && err == Some(claim.error) && world == old(world)
              else
                && err == None && inst != null && fresh(inst) && inst.id == id && WellFormed(inst.chartDef)
                && Driving(inst, x.id, Deciding) && world.drivers[x.id].first && world.drivers[x.id].resume == Some(Resume(signal, data))
      ensures err == Some(NotFound) <==> id !in old(store.instances)
      ensures err == Some(NotWaiting) <==>
              id in old(store.instances) && (old(store.instances)[id].status != Suspended || signal !in old(store.instances)[id].wakeOn)
      ensures err == Some(DuplicateExecution) <==> old(store.Waiting(id, signal)) && x.id in old(store.executions)
      ensures err == Some(DuplicateDelivery) <==>
              old(store.Waiting(id, signal)) && x.id !in old(store.executions) && x.deliveryId.Some?
              && exists e :: e in old(store.executions) && old(store.executions)[e].deliveryId == x.deliveryId
      ensures err != Some(DuplicateInstance)
      ensures err.None? ==>
                && inst.status.Running?
                && store.instances == old(store.instances)[id := old(store.instances)[id].(
                                        status := Running, version := old(store.instances)[id].version + 1, updatedAt := store.clock)]
                && store.executions == old(store.executions)[x.id := Execution(x.id, id, OnSignal(signal), x.deliveryId, store.clock, None, None,
                                                                               "", [], None, store.clock)]
      ensures err.None? && |data| > 0 ==> inst.current in inst.payload && inst.payload[inst.current] == Object(data)
      ensures err.None? ==>
                && inst.current == old(store.instances)[id].current
                && forall k :: k != inst.current || |data| == 0 ==> Agree(inst.payload, old(store.instances)[id].payload, k)
    {
      hide Reached, NoPassActive, WellFormed, DeliverySeen, File, ClaimIn, DoSignal;
      if id in store.instances { PinnedIsValid(world, id); }
      inst, err := store.Claim(id, signal, x);
      SignalReaches(world, id, signal, data, x.id, x.deliveryId);
      SignalTakes(world, id, signal, data, x.id, x.deliveryId);
      world := DoSignal(world, id, signal, data, x.id, x.deliveryId);
      if err.Some? { return; }
      FileOutput(inst, inst.current, data);
    }

    /** Drives a claimed instance, and releases the claim if its input was rejected. */
    method Resumed(inst: Instance, execId: string, resume: Resume, fuel: nat) returns (end: StepEnd)
      requires Valid() && Driving(inst, execId, Deciding) && WellFormed(inst.chartDef)
      requires world.drivers[execId].first && world.drivers[execId].resume == Some(resume)
      requires inst.status.Running?
      modifies this, store, inst
      ensures Synced() && Ran(world, calls) == Drive(registry, old(world), execId, old(calls), fuel) && inst.id == old(inst.id)
      ensures var w := Loop(registry, old(world), execId, old(calls), fuel).state;
              execId in w.drivers && EndsAs(w.drivers[execId], Some(resume), end)
      ensures end.Rested? ==> Stored(inst) && (inst.status.Suspended? || inst.status.Done?)
      ensures end.Broke? ==> RowFailed(inst.id) && FailedFor(execId, end.cause)
      ensures end.Rejected? ==> GivenBack(inst.id, 1)
      ensures end.Died? ==> RowRuns(inst.id)
    {
      hide Reached, Leads, Keeps, Loop, WellFormed, DoReleaseLoad, DoReleaseClose;
      DecidingRuns(world, execId);
      LoopIsRun(registry, world, execId, calls, fuel);
      ReachedJoin(world, Loop(registry, world, execId, calls, fuel).state);
      var c := ChartFor(inst);
      if c == null { assert false; }
      end := StepWith(c, inst, execId, Some(resume), fuel);
      ghost var ended := world;
      if WrapsInvalid(end) {
        ReleaseToSuspended(inst.id, execId);
      }
      if end.Broke? { RecordStays(ended, world, execId, inst.id, end.cause); }
    }

    /** Wakes a suspended instance waiting on the signal, and drives it. An empty delivery id means none. */
    method SignalInstance(id: string, signal: string, data: Payload, deliveryId: string, execId: string, fuel: nat)
      returns (inst: Instance?, end: CallEnd)
      requires Valid()
      modifies this, store
      ensures Valid() && Keeps(old(world), world)
      ensures Ran(world, calls) == SignalRun(registry, old(world), id, signal, data, execId,
                                             if deliveryId == "" then None else Some(deliveryId), old(calls), fuel)
      ensures end == Turned(NotFound) <==> id !in old(store.instances)
      ensures end == Turned(NotWaiting) <==>
              id in old(store.instances) && (old(store.instances)[id].status != Suspended || signal !in old(store.instances)[id].wakeOn)
      ensures end == Turned(DuplicateExecution) <==> old(store.Waiting(id, signal)) && execId in old(store.executions)
      ensures end == Turned(DuplicateDelivery) <==>
              old(store.Waiting(id, signal)) && execId !in old(store.executions) && deliveryId != ""
              && exists e :: e in old(store.executions) && old(store.executions)[e].deliveryId == Some(deliveryId)
      ensures end != Turned(DuplicateInstance)
      ensures end.Turned? ==> store.Contents() == old(store.Contents()) && completions == old(completions) && calls == old(calls)
      ensures inst != null <==> end == Drove(Rested)
      ensures inst != null ==> Stored(inst) && inst.id == id && (inst.status.Suspended? || inst.status.Done?)
      ensures end.Drove? && end.end.Broke? ==> RowFailed(id) && FailedFor(execId, end.end.cause)
      ensures end == Drove(Rejected) ==> GivenBack(id, 2)
      ensures end == Drove(Died) ==> RowRuns(id)
      ensures end.Drove? ==>
                var w := Loop(registry, DoSignal(old(world), id, signal, data, execId, if deliveryId == "" then None else Some(deliveryId)),
                              execId, old(calls), fuel).state;
                execId in w.drivers && EndsAs(w.drivers[execId], Some(Resume(signal, data)), end.end)
      ensures fuel >= 2 ==> InteractiveCharts.FoldsOn(registry, old(world), world, id,
                              InteractiveCharts.Call(signal, data, execId, if deliveryId == "" then None else Some(deliveryId)))
    {
      hide Reached, Leads, Keeps, Drive, ClaimIn, WellFormed, DoSignal, InteractiveCharts.FoldsOn, EndsAs, FailedFor, Loop;
      ghost var delivery := if deliveryId == "" then None else Some(deliveryId);
      ghost var end' := SignalRun(registry, world, id, signal, data, execId, delivery, calls, fuel).state;
      SignalIsRun(registry, world, id, signal, data, execId, delivery, calls, fuel);
      if fuel >= 2 { SignalFolding(registry, world, id, InteractiveCharts.Call(signal, data, execId, delivery), calls, fuel); }
      LeadsPreserves(world, end');
      ReachedJoin(world, end');
      var x := NewExecution(execId, id, OnSignal(signal), None);
      if deliveryId != "" { x := x.(deliveryId := Some(deliveryId)); }
      var claimed, err := Wake(id, signal, data, x);
      if err.Some? { return null, Turned(err.value); }
      var stop := Resumed(claimed, execId, Resume(signal, data), fuel);
      inst := if stop.Rested? then claimed else null;
      end := Drove(stop);
    }

    method RollBackTo(inst: Instance, cp: Execution)
      modifies inst
      ensures inst.Record() ==
              old(inst.Record()).(status := Suspended, current := cp.suspendedAtState, wakeOn := cp.suspendedWakeOn, wakeAt := None)
    {
      inst.status := Suspended;
      inst.current := cp.suspendedAtState;
      inst.wakeOn := cp.suspendedWakeOn;
      inst.wakeAt := None;
    }

    /** Looks for the checkpoint and sets the loaded instance right: rolled back, or failed if it never parked. */
    method Judge(inst: Instance, ghost x: Execution, ghost r: string, ghost queue: seq<Execution>, ghost n: nat) returns (found: bool)
      requires Synced() && r in world.passes && world.passes[r] == Pass(queue, Searching(x, inst.Record()), n)
      requires SearchIsSettled(world)
      modifies this`world, inst
      ensures Synced() && world == DoPassSearch(old(world), r, ParkOf(old(world), old(inst.id)))
      ensures r in world.passes && world.passes[r] == Pass(queue, Writing(x, inst.Record(), if found then RollBack else MarkFailed), n)
      ensures inst.id == old(inst.id)
    {
      hide NeverParked, LastPark, SearchIsSettled, ParkOf, DoPassSearch;
      var checkpoint, at := store.FindLastCheckpoint(inst.id);
      if checkpoint.Some? { SettledAt(world, inst.id, at); }
      SearchTakes(world, r, queue, x, inst.Record(), n, ParkOf(world, inst.id));
      world := DoPassSearch(world, r, ParkOf(world, inst.id));
      found := checkpoint.Some?;
      if found {
        RollBackTo(inst, checkpoint.value);
      } else {
        inst.status := Failed;
      }
    }

    /** The pass's closing write. */
    method CloseCrashed(inst: Instance, x: Execution, duty: Duty, ghost r: string, ghost queue: seq<Execution>, ghost n: nat)
      requires Synced() && r in world.passes && world.passes[r] == Pass(queue, Writing(x, inst.Record(), duty), n)
      modifies this`world, store, inst
      ensures Synced() && world == DoPassClose(old(world), r)
      ensures inst.id == old(inst.id)
      ensures r in world.passes
              && world.passes[r] == Pass(queue, if duty.MarkFailed? then Announcing(x) else Fetching, if duty.RollBack? then n + 1 else n)
    {
      hide Disown, CloseIn;
      store.CloseExecution(inst, x.id, OutcomeCrashed, Some(CrashCause(duty)));
      world := DoPassClose(world, r);
    }

    /** The rest of a round once a running instance is loaded: judge, close, and notify if it failed. */
    method Rescue(inst: Instance, x: Execution, ghost r: string, ghost queue: seq<Execution>, ghost n: nat)
      requires Synced() && r in world.passes && world.passes[r] == Pass(queue, Searching(x, inst.Record()), n)
      requires SearchIsSettled(world) && inst.id == x.instanceId
      modifies this`world, this`completions, store, inst
      ensures Synced()
      ensures world == DoPassHook(DoPassClose(DoPassSearch(old(world), r, ParkOf(old(world), old(inst.id))), r), r)
      ensures r in world.passes && world.passes[r].recovered == n + 1
    {
      hide DoPassClose, DoPassSearch, SearchIsSettled, ParkOf;
      var found := Judge(inst, x, r, queue, n);
      if found {
        CloseCrashed(inst, x, RollBack, r, queue, n);
      } else {
        CloseCrashed(inst, x, MarkFailed, r, queue, n);
        completions := completions + multiset{inst.id};
        world := DoPassHook(world, r);
      }
    }

    /** One round of the recovery loop, over the execution at the head of the pass's queue. */
    method RecoverHead(x: Execution, recovered: nat, ghost r: string) returns (count: nat)
      requires Synced() && SearchIsSettled(world)
      requires r in world.passes && world.passes[r].pc.Fetching? && world.passes[r].recovered == recovered
      requires world.passes[r].queue != [] && world.passes[r].queue[0] == x
      modifies this`world, this`completions, store
      ensures Synced() && world == RecoverNext(old(world), r)
      ensures r in world.passes && count == world.passes[r].recovered
    {
      hide DoPassClose, DoPassSearch, SearchIsSettled, ParkOf;
      ghost var queue := world.passes[r].queue[1..];
      var inst := store.Load(x.instanceId);
      world := DoPassLoad(world, r);
      if inst == null {
        Skipped(world, r);
        return recovered;
      }
      StillSettled(old(world), world, x.instanceId);
      if inst.status != Running {
        CloseCrashed(inst, x, JustClose, r, queue, recovered);
        return recovered;
      }
      Rescue(inst, x, r, queue, recovered);
      return recovered + 1;
    }

    /** The recovery loop. */
    method RecoverEach(crashed: seq<Execution>, ghost r: string) returns (recovered: nat)
      requires Synced() && Inv(world) && Between(world, r, crashed, 0)
      modifies this`world, this`completions, store
      ensures Synced() && world == RecoverQueue(old(world), r, |crashed|)
      ensures recovered == |crashed| && Between(world, r, [], recovered)
    {
      hide Inv, RecoverNext, Recovered;
      recovered := 0;
      var k := 0;
      while k < |crashed|
        invariant k <= |crashed| && Synced() && Inv(world)
        invariant Between(world, r, crashed[k..], k) && recovered == k
        invariant RecoverQueue(world, r, |crashed| - k) == RecoverQueue(old(world), r, |crashed|)
      {
        RecoverOne(world, r, crashed[k..], k);
        SearchSettles(world);
        recovered := RecoverHead(crashed[k], recovered, r);
        assert crashed[k..][1..] == crashed[k + 1..];
        k := k + 1;
      }
    }

    /** The moment before which an unrenewed lease has run out. */
    function Threshold(): nat
      reads store
    {
      if store.clock < lease then 0 else store.clock - lease
    }

    /**
     * Rolls back or fails every drive whose lease has run out, and returns how many. `order` is the order in which the
     * store listed them.
     */
    method RecoverStale(ghost r: string) returns (recovered: nat, ghost order: seq<string>)
      requires Valid()
      requires forall e :: e in store.executions && Overdue(store.executions[e], lease, store.clock) ==>
                             e in world.drivers && world.drivers[e].pc.Crashed?
      modifies this, store
      ensures Valid() && Keeps(old(world), world)
      ensures store.executions.Keys == old(store.executions).Keys && store.instances.Keys == old(store.instances).Keys
      ensures forall e :: e in store.executions ==>
                if Overdue(old(store.executions)[e], lease, old(store.clock)) then
                  Struck(old(store.executions)[e], store.executions[e], !NeverParked(old(store.Contents()), old(store.executions)[e].instanceId))
                else store.executions[e] == old(store.executions)[e]
      ensures forall i :: i in store.instances ==>
                if HasOverdue(old(store.executions), i, lease, old(store.clock)) then SetRight(old(store.Contents()), store.Contents(), i)
                else store.instances[i] == old(store.instances)[i]
      ensures forall i :: i in store.instances ==>
                completions[i] == old(completions)[i] + if HasOverdue(old(store.executions), i, lease, old(store.clock))
                                                           && NeverParked(old(store.Contents()), i) then 1 else 0
      ensures recovered == |set e | e in old(store.executions) && Overdue(old(store.executions)[e], lease, old(store.clock))|
      ensures forall e :: e in store.executions ==> !Overdue(store.executions[e], lease, old(store.clock))
      ensures Enumerates(order, Expired(old(world).store, old(Threshold())))
      ensures world == RecoverAll(old(world), r, old(Threshold()), order)
      ensures recovered == |Expired(old(world).store, old(Threshold()))|
      ensures Expired(store.Contents(), old(Threshold())) == {}
    {
      hide Reached, Leads, Keeps, Inv, DoScan, RecoverQueue, NoPassActive, LeaseMeansDead, Enumerates, Expired,
           NeverParked, SetRight, Struck, HasOverdue, Overdue, Stale;
      var before := Threshold();
      OverdueIsExpired(store.Contents(), lease, store.clock, before);
      assert LeaseMeansDead(world, before) by { OverdueIsDead(world, lease, store.clock, before); }
      var crashed;
      crashed, order := store.FindCrashedExecutions(before, 0);
      ReachedInv(world);
      PassIsRun(world, r, before, order);
      LeadsPreserves(world, RecoverAll(world, r, before, order));
      ReachedJoin(world, RecoverAll(world, r, before, order));
      ScanKeeps(world, r, before, order);
      ScanIsBetween(world, r, before, order);
      PassIsTotalAndFramed(world, r, before, order);
      PassReadsLease(world, r, lease, store.clock, before, order);
      world := DoScan(world, r, before, order);
      recovered := RecoverEach(crashed, r);
    }
  }
}
