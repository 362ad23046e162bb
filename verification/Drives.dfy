/**
 * One driver run on its own from where it stands until it stops: the sequential meaning of `Start` and
 * `SignalInstance`, against which the Engine class is proved. A drive may die before any executor call.
 */
module Drives {
  import opened Prelude
  import opened Charts
  import opened Stores
  import opened Protocol
  import opened Invariant
  import opened Guarantees

  // ---------------------------------------------------------------- executors

  /** What an executor is shown: name and data are those of the wake signal on the first step of a resume, else empty. */
  datatype Event = Event(name: string, data: Payload, payload: Payload, config: Payload)

  datatype Answer = Error(text: string, invalidInput: bool) | Ok(result: Result)

  /** An executor may answer each call as it likes: the number is the count of calls made so far. */
  type Executor = (nat, Event) -> Answer

  type Registry = map<string, Executor>

  function EventFor(d: Driver, st: StateConfig): Event {
    if d.first && d.resume.Some?
    then Event(d.resume.value.signal, d.resume.value.data, d.inst.payload, st.config)
    else Event("", map[], d.inst.payload, st.config)
  }

  function ReplyOf(answer: Answer): Reply {
    match answer
    case Error(text, invalid) => Fails(text, invalid)
    case Ok(result) => Returns(result)
  }

  /** The driver's next iteration reaches an executor. */
  predicate CallsExecutor(reg: Registry, d: Driver) {
    var st := Lookup(d.inst.chartDef, d.inst.current);
    st.Some? && !st.value.terminal && st.value.executor in reg
  }

  function Ask(reg: Registry, d: Driver, calls: nat): Reply
    requires CallsExecutor(reg, d)
  {
    var st := Lookup(d.inst.chartDef, d.inst.current).value;
    ReplyOf(reg[st.executor](calls, EventFor(d, st)))
  }

  // ---------------------------------------------------------------- the loop, then the release

  datatype Ran = Ran(state: State, calls: nat)

  function Rank(pc: Pc): nat {
    match pc
    case Saving => 4
    case Deciding => 3
    case Closing(_, _) => 2
    case Hooking(_) => 1
    case _ => 0
  }

  function PcOf(s: State, e: string): Pc {
    if e in s.drivers then s.drivers[e].pc else Finished
  }

  /** The engine loop run by driver `e` alone, with at most `fuel` executor calls before its process dies. */
  function Loop(reg: Registry, s: State, e: string, calls: nat, fuel: nat): Ran
    decreases fuel, Rank(PcOf(s, e))
  {
    match PcOf(s, e)
    case Deciding =>
      if !CallsExecutor(reg, s.drivers[e]) then
        UncalledCloses(reg, s.drivers[e]);
        Loop(reg, DoExecute(s, e, Unregistered), e, calls, fuel)
      else if fuel == 0 then Ran(DoDie(s, e), calls)
      else Loop(reg, DoExecute(s, e, Ask(reg, s.drivers[e], calls)), e, calls + 1, fuel - 1)
    case Saving => Loop(reg, DoSave(s, e), e, calls, fuel)
    case Closing(_, _) => Loop(reg, DoClose(s, e), e, calls, fuel)
    case Hooking(_) => Loop(reg, DoHook(s, e), e, calls, fuel)
    case _ => Ran(s, calls)
  }

  lemma UncalledCloses(reg: Registry, d: Driver)
    requires !CallsExecutor(reg, d)
    ensures Decide(d, Unregistered).pc.Closing?
  {
  }

  // The loop, one step unrolled.

  lemma LoopUncalled(reg: Registry, s: State, e: string, calls: nat, fuel: nat)
    requires PcOf(s, e).Deciding? && !CallsExecutor(reg, s.drivers[e])
    ensures Loop(reg, s, e, calls, fuel) == Loop(reg, DoExecute(s, e, Unregistered), e, calls, fuel)
  {
    UncalledCloses(reg, s.drivers[e]);
  }

  lemma LoopCalled(reg: Registry, s: State, e: string, calls: nat, fuel: nat)
    requires PcOf(s, e).Deciding? && CallsExecutor(reg, s.drivers[e])
    ensures Loop(reg, s, e, calls, fuel) ==
            if fuel == 0 then Ran(DoDie(s, e), calls)
            else Loop(reg, DoExecute(s, e, Ask(reg, s.drivers[e], calls)), e, calls + 1, fuel - 1)
  {
  }

  lemma LoopWrites(reg: Registry, s: State, e: string, calls: nat, fuel: nat)
    ensures PcOf(s, e).Saving? ==> Loop(reg, s, e, calls, fuel) == Loop(reg, DoSave(s, e), e, calls, fuel)
    ensures PcOf(s, e).Closing? ==> Loop(reg, s, e, calls, fuel) == Loop(reg, DoClose(s, e), e, calls, fuel)
    ensures PcOf(s, e).Hooking? ==> Loop(reg, s, e, calls, fuel) == Loop(reg, DoHook(s, e), e, calls, fuel)
    ensures PcOf(s, e).Finished? || PcOf(s, e).Crashed? || PcOf(s, e).Releasing? ==> Loop(reg, s, e, calls, fuel) == Ran(s, calls)
  {
  }

  /** An allowance of executor calls that suffices changes nothing by being larger. */
  lemma {:induction false} MoreFuel(reg: Registry, s: State, e: string, calls: nat, fuel: nat, more: nat)
    requires fuel <= more && !PcOf(Loop(reg, s, e, calls, fuel).state, e).Crashed?
    ensures Loop(reg, s, e, calls, more) == Loop(reg, s, e, calls, fuel)
    decreases fuel, Rank(PcOf(s, e))
  {
    hide DoExecute, DoSave, DoClose, DoHook, Ask, EventFor, CallsExecutor;
    Descends(reg, s, e);
    match PcOf(s, e)
    case Deciding =>
      if !CallsExecutor(reg, s.drivers[e]) {
        MoreFuel(reg, DoExecute(s, e, Unregistered), e, calls, fuel, more);
      } else if fuel > 0 {
        MoreFuel(reg, DoExecute(s, e, Ask(reg, s.drivers[e], calls)), e, calls + 1, fuel - 1, more - 1);
      }
    case Saving => MoreFuel(reg, DoSave(s, e), e, calls, fuel, more);
    case Closing(_, _) => MoreFuel(reg, DoClose(s, e), e, calls, fuel, more);
    case Hooking(_) => MoreFuel(reg, DoHook(s, e), e, calls, fuel, more);
    case _ =>
  }

  /** What follows an invalid-input error: reload, and write the claim back if it is still held. */
  function Settle(s: State, e: string): State {
    if PcOf(s, e).Releasing? then DoReleaseClose(DoReleaseLoad(s, e), e) else s
  }

  function Drive(reg: Registry, s: State, e: string, calls: nat, fuel: nat): Ran {
    var end := Loop(reg, s, e, calls, fuel);
    Ran(Settle(end.state, e), end.calls)
  }

  function StartRun(reg: Registry, s: State, id: string, chart: ChartDef, payload: Payload, e: string, calls: nat, fuel: nat): Ran {
    if StartIn(s.store, FreshRow(id, chart, payload), NewExecution(e, id, OnStart, None), s.clock + 1).Admitted?
    then Drive(reg, DoStart(s, id, chart, payload, e), e, calls, fuel)
    else Ran(s, calls)
  }

  function SignalRun(reg: Registry, s: State, id: string, signal: string, data: Payload, e: string, delivery: Option<string>,
                     calls: nat, fuel: nat): Ran {
    if ClaimIn(s.store, id, signal, NewExecution(e, id, OnSignal(signal), delivery), s.clock + 1).Admitted?
    then Drive(reg, DoSignal(s, id, signal, data, e, delivery), e, calls, fuel)
    else Ran(s, calls)
  }

  // ---------------------------------------------------------------- a drive is a run of the protocol

  lemma PassesStand(s: State, e: string)
    ensures DoSave(s, e).passes == DoClose(s, e).passes == DoHook(s, e).passes == s.passes
    ensures forall reply :: DoExecute(s, e, reply).passes == s.passes
  {
    hide SaveIn, CloseIn, Disown, Decide;
  }

  /** Each local step moves the driver down to its end, a save excepted; no driver step touches a recovery pass. */
  lemma Descends(reg: Registry, s: State, e: string)
    ensures PcOf(s, e).Deciding? && !CallsExecutor(reg, s.drivers[e]) ==> PcOf(DoExecute(s, e, Unregistered), e).Closing?
    ensures PcOf(s, e).Saving? ==> PcOf(DoSave(s, e), e).Deciding?
    ensures PcOf(s, e).Closing? ==> PcOf(DoClose(s, e), e).Finished? || PcOf(DoClose(s, e), e).Hooking?
    ensures PcOf(s, e).Hooking? ==> PcOf(DoHook(s, e), e).Finished? || PcOf(DoHook(s, e), e).Releasing?
    ensures DoSave(s, e).passes == s.passes && DoClose(s, e).passes == s.passes && DoHook(s, e).passes == s.passes
    ensures forall reply :: DoExecute(s, e, reply).passes == s.passes
  {
    PassesStand(s, e);
    if PcOf(s, e).Deciding? && !CallsExecutor(reg, s.drivers[e]) { UncalledCloses(reg, s.drivers[e]); }
    hide SaveIn, CloseIn, Disown, Decide;
  }

  /** The loop run by one driver is a legal run of the protocol. */
  lemma {:induction false} LoopIsRun(reg: Registry, s: State, e: string, calls: nat, fuel: nat)
    ensures Leads(s, Loop(reg, s, e, calls, fuel).state)
    ensures Loop(reg, s, e, calls, fuel).state.passes == s.passes
    decreases fuel, Rank(PcOf(s, e))
  {
    hide Leads, DoExecute, DoSave, DoClose, DoHook, Ask, EventFor, CallsExecutor;
    Descends(reg, s, e);
    var end := Loop(reg, s, e, calls, fuel).state;
    match PcOf(s, e)
    case Deciding =>
      if !CallsExecutor(reg, s.drivers[e]) {
        LoopIsRun(reg, DoExecute(s, e, Unregistered), e, calls, fuel);
        StepThen(s, Execute(e, Unregistered), end);
      } else if fuel == 0 {
        LeadsStep(s, Die(e));
      } else {
        var reply := Ask(reg, s.drivers[e], calls);
        LoopIsRun(reg, DoExecute(s, e, reply), e, calls + 1, fuel - 1);
        StepThen(s, Execute(e, reply), end);
      }
    case Saving =>
      LoopIsRun(reg, DoSave(s, e), e, calls, fuel);
      StepThen(s, SaveStep(e), end);
    case Closing(_, _) =>
      LoopIsRun(reg, DoClose(s, e), e, calls, fuel);
      StepThen(s, CloseStep(e), end);
    case Hooking(_) =>
      LoopIsRun(reg, DoHook(s, e), e, calls, fuel);
      StepThen(s, HookStep(e), end);
    case _ => LeadsNowhere(s);
  }

  lemma StepThen(s: State, a: Action, t: State)
    requires Legal(s, a) && Leads(Next(s, a), t)
    ensures Leads(s, t)
  {
    hide Leads, Legal, Next;
    LeadsStep(s, a);
    LeadsJoin(s, Next(s, a), t);
  }

  lemma SettleIsRun(s: State, e: string)
    ensures Leads(s, Settle(s, e)) && Settle(s, e).passes == s.passes
  {
    hide Leads, CloseIn, Disown;
    if PcOf(s, e).Releasing? {
      var t := DoReleaseLoad(s, e);
      LeadsStep(t, ReleaseClose(e));
      StepThen(s, ReleaseLoad(e), Settle(s, e));
    } else {
      LeadsNowhere(s);
    }
  }

  lemma DriveIsRun(reg: Registry, s: State, e: string, calls: nat, fuel: nat)
    ensures Leads(s, Drive(reg, s, e, calls, fuel).state) && Drive(reg, s, e, calls, fuel).state.passes == s.passes
  {
    hide Leads, Loop, Settle;
    var end := Loop(reg, s, e, calls, fuel).state;
    LoopIsRun(reg, s, e, calls, fuel);
    SettleIsRun(end, e);
    LeadsJoin(s, end, Settle(end, e));
  }

  /** A whole call of Start is a legal run of the protocol, for a validated chart. */
  lemma StartIsRun(reg: Registry, s: State, id: string, chart: ChartDef, payload: Payload, e: string, calls: nat, fuel: nat)
    requires WellFormed(chart)
    ensures var t := StartRun(reg, s, id, chart, payload, e, calls, fuel).state; Leads(s, t) && t.passes == s.passes
  {
    hide Leads, Drive, StartIn, WellFormed;
    var t := DoStart(s, id, chart, payload, e);
    DriveIsRun(reg, t, e, calls, fuel);
    LeadsNowhere(s);
    StepThen(s, Start(id, chart, payload, e), Drive(reg, t, e, calls, fuel).state);
  }

  /** So is a whole call of SignalInstance, its release included. */
  lemma SignalIsRun(reg: Registry, s: State, id: string, signal: string, data: Payload, e: string, delivery: Option<string>, calls: nat, fuel: nat)
    ensures var t := SignalRun(reg, s, id, signal, data, e, delivery, calls, fuel).state; Leads(s, t) && t.passes == s.passes
  {
    hide Leads, Drive, ClaimIn;
    var t := DoSignal(s, id, signal, data, e, delivery);
    DriveIsRun(reg, t, e, calls, fuel);
    LeadsNowhere(s);
    StepThen(s, Signal(id, signal, data, e, delivery), Drive(reg, t, e, calls, fuel).state);
  }

  /** Hence each keeps the invariant. */
  lemma DriveKeeps(reg: Registry, s: State, e: string, calls: nat, fuel: nat)
    requires Inv(s)
    ensures Inv(Drive(reg, s, e, calls, fuel).state) && Drive(reg, s, e, calls, fuel).state.passes == s.passes
  {
    hide Inv, Leads, Drive;
    DriveIsRun(reg, s, e, calls, fuel);
    LeadsKeeps(s, Drive(reg, s, e, calls, fuel).state);
  }

  lemma SignalRunKeeps(reg: Registry, s: State, id: string, signal: string, data: Payload, e: string, delivery: Option<string>, calls: nat, fuel: nat)
    requires Inv(s)
    ensures Inv(SignalRun(reg, s, id, signal, data, e, delivery, calls, fuel).state)
  {
    hide Inv, Leads, SignalRun;
    SignalIsRun(reg, s, id, signal, data, e, delivery, calls, fuel);
    LeadsKeeps(s, SignalRun(reg, s, id, signal, data, e, delivery, calls, fuel).state);
  }
}
