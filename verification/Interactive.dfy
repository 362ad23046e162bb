/**
 * Charts whose working states are all interactive tasks are plain automata: delivering any sequence of signals,
 * one at a time, folds the chart's first-match transition function over the accepted ones.
 */
module InteractiveCharts {
  import opened Prelude
  import opened Charts
  import opened Stores
  import opened Protocol
  import opened Invariant
  import opened Preservation
  import opened Steps
  import opened Drives
  import opened Builtin

  const TASK := "interactive_task"

  ghost predicate InteractiveOnly(reg: Registry, c: ChartDef) {
    && WellFormed(c)
    && TASK in reg
    && (forall n: nat, ev: Event {:trigger reg[TASK](n, ev)} :: reg[TASK](n, ev) == Interactive(ev))
    && (forall k :: 0 <= k < |c.states| && !c.states[k].terminal ==> c.states[k].executor == TASK && c.states[k].signals != [])
  }

  // ---------------------------------------------------------------- the automaton

  /** The automaton's state, with the delivery ids and the execution ids already used up. */
  datatype Dfa = Dfa(state: string, spent: set<string>, used: set<string>)

  datatype Call = Call(signal: string, data: Payload, e: string, delivery: Option<string>)

  /** No non-empty string listed under "require" in the state's configuration is missing from the data. */
  predicate HasRequired(c: ChartDef, q: string, data: Payload): (has: bool)
    ensures has <==>
              && Lookup(c, q).Some?
              && var config := Lookup(c, q).value.config;
              !("require" in config && config["require"].List?
                && exists f :: f != "" && Str(f) in config["require"].items && f !in data)
  {
    && Lookup(c, q).Some?
    && var config := Lookup(c, q).value.config;
    RequiredMeans(config);
    forall f :: f in Required(config) ==> f in data
  }

  /** The claim succeeds: the state waits on the signal, and both ids are new. */
  predicate Claimed(c: ChartDef, dfa: Dfa, call: Call) {
    && call.signal in SignalsAt(c, dfa.state)
    && call.e !in dfa.used
    && (call.delivery.Some? ==> call.delivery.value !in dfa.spent)
  }

  /** First-match transition on an accepted signal; every other call leaves the state alone. A claim spends its ids. */
  function Step(c: ChartDef, dfa: Dfa, call: Call): Dfa {
    if !Claimed(c, dfa, call) then dfa
    else
      var spent := if call.delivery.Some? then dfa.spent + {call.delivery.value} else dfa.spent;
      var used := dfa.used + {call.e};
      if !HasRequired(c, dfa.state, call.data) then Dfa(dfa.state, spent, used)
      else match Resolve(Lookup(c, dfa.state).value.transitions, call.signal)
        case None => Dfa(dfa.state, spent, used)
        case Some(next) => Dfa(next, spent, used)
  }

  function Fold(c: ChartDef, dfa: Dfa, calls: seq<Call>): Dfa
    decreases |calls|
  {
    if calls == [] then dfa else Step(c, Fold(c, dfa, calls[..|calls| - 1]), calls[|calls| - 1])
  }

  // ---------------------------------------------------------------- the engine's side

  /** The instance rests where the automaton stands, with exactly the recorded ids used up. */
  ghost predicate Matches(s: State, i: string, c: ChartDef, dfa: Dfa) {
    && i in s.store.instances
    && s.store.instances[i].chartDef == c && s.store.instances[i].current == dfa.state
    && s.store.instances[i].status == (if TerminalAt(c, dfa.state) then Done else Suspended)
    && (forall d :: d in dfa.spent <==> DeliverySeen(s.store.executions, Some(d)))
    && dfa.used == s.store.executions.Keys
  }

  /** SignalInstance called once per element, each call running to completion before the next, within `fuel` executor calls. */
  function SignalAll(reg: Registry, s: State, i: string, calls: seq<Call>, count: nat, fuel: nat): Ran
    decreases |calls|
  {
    if calls == [] then Ran(s, count)
    else
      var before := SignalAll(reg, s, i, calls[..|calls| - 1], count, fuel);
      var call := calls[|calls| - 1];
      SignalRun(reg, before.state, i, call.signal, call.data, call.e, call.delivery, before.calls, fuel)
  }

  // ---------------------------------------------------------------- what each step of a drive does

  /** Driver `e` stands as `d`, under an execution carrying `delivery`. */
  ghost predicate Stands(s: State, e: string, d: Driver) {
    e in s.drivers && s.drivers[e] == d && e in s.store.executions
  }

  /** Same executions under the same delivery ids. */
  ghost predicate SameDeliveries(s: State, t: State) {
    t.store.executions.Keys == s.store.executions.Keys
    && forall f :: f in s.store.executions ==> t.store.executions[f].deliveryId == s.store.executions[f].deliveryId
  }

  lemma DeliveriesCarry(s: State, t: State, d: Option<string>)
    requires SameDeliveries(s, t)
    ensures DeliverySeen(t.store.executions, d) == DeliverySeen(s.store.executions, d)
  {
  }

  lemma AfterExecute(reg: Registry, s: State, e: string, d: Driver, calls: nat, fuel: nat)
    requires Stands(s, e, d) && d.pc.Deciding? && CallsExecutor(reg, d) && fuel > 0
    ensures var d' := Decide(d, Ask(reg, d, calls));
            var t := s.(drivers := s.drivers[e := d']);
            Stands(t, e, d') && Loop(reg, s, e, calls, fuel) == Loop(reg, t, e, calls + 1, fuel - 1)
  {
    hide Ask, Decide, CallsExecutor;
  }

  lemma AfterUncalled(reg: Registry, s: State, e: string, d: Driver, calls: nat, fuel: nat)
    requires Stands(s, e, d) && d.pc.Deciding? && !CallsExecutor(reg, d)
    ensures var d' := Decide(d, Unregistered);
            var t := s.(drivers := s.drivers[e := d']);
            Stands(t, e, d') && Loop(reg, s, e, calls, fuel) == Loop(reg, t, e, calls, fuel)
  {
    UncalledCloses(reg, d);
    hide Decide, CallsExecutor;
  }

  lemma AfterSave(reg: Registry, s: State, e: string, d: Driver, calls: nat, fuel: nat)
    requires Stands(s, e, d) && d.pc.Saving?
    ensures var d' := d.(inst := Stamp(d.inst, s.clock + 1), first := false, pc := Deciding);
            var t := DoSave(s, e);
            Stands(t, e, d') && Loop(reg, s, e, calls, fuel) == Loop(reg, t, e, calls, fuel) && SameDeliveries(s, t)
            && t.clock == s.clock + 1
  {
    hide Stamp;
    LoopWrites(reg, s, e, calls, fuel);
  }

  /** Closing, and the hook if the status is final, end the drive with the copy stored. */
  lemma AfterClose(reg: Registry, s: State, e: string, d: Driver, calls: nat, fuel: nat)
    requires Stands(s, e, d) && d.pc.Closing? && d.pc.cause.None?
    ensures var end := Loop(reg, s, e, calls, fuel);
            && end.calls == calls && PcOf(end.state, e).Finished?
            && end.state.store.instances == s.store.instances[d.inst.id := Stamp(d.inst, s.clock + 1)]
            && SameDeliveries(s, end.state)
  {
    hide Stamp, Disown;
    var t := DoClose(s, e);
    assert Loop(reg, s, e, calls, fuel) == Loop(reg, t, e, calls, fuel);
    if PcOf(t, e).Hooking? {
      var u := DoHook(t, e);
      assert Loop(reg, t, e, calls, fuel) == Loop(reg, u, e, calls, fuel);
      assert PcOf(u, e).Finished?;
    }
  }

  // ---------------------------------------------------------------- one drive of an interactive chart

  /** The row at rest in the state it names. */
  ghost function AtRest(r: InstanceRecord): InstanceRecord {
    r.(status := if TerminalAt(r.chartDef, r.current) then Done else Suspended,
       wakeOn := SignalsAt(r.chartDef, r.current), wakeAt := None)
  }

  lemma TaskState(reg: Registry, c: ChartDef, name: string)
    requires InteractiveOnly(reg, c) && name in Names(c.states)
    ensures Lookup(c, name).Some? && Lookup(c, name).value.name == name
    ensures var st := Lookup(c, name).value;
            if st.terminal then st.signals == [] else st.executor == TASK && st.signals != []
  {
    hide Interactive;
    LookupOK(c, name);
    FindMeansFirst(c.states, name);
  }

  /** A cold iteration at an interactive task parks; at a terminal state it completes. */
  lemma ColdDecision(reg: Registry, d: Driver, calls: nat)
    requires InteractiveOnly(reg, d.inst.chartDef) && d.inst.current in Names(d.inst.chartDef.states)
    requires d.pc.Deciding? && (d.resume.None? || !d.first) && d.inst.wakeOn == [] && d.inst.wakeAt == None
    ensures CallsExecutor(reg, d) <==> !TerminalAt(d.inst.chartDef, d.inst.current)
    ensures var d' := Decide(d, if CallsExecutor(reg, d) then Ask(reg, d, calls) else Unregistered);
            d'.inst == AtRest(d.inst) && d'.pc.Closing? && d'.pc.cause.None?
  {
    TaskState(reg, d.inst.chartDef, d.inst.current);
    hide WellFormed, Names, Lookup;
    assert File(d.inst.payload, d.inst.current, map[]) == d.inst.payload;
  }

  lemma DeliveriesByStore(s: State, s': State, t: State)
    requires s'.store == s.store && SameDeliveries(s', t)
    ensures SameDeliveries(s, t)
  {
  }

  /** From a cold start of its loop, a drive of an interactive chart comes to rest where it stands, in one executor call at most. */
  lemma ColdDriveRests(reg: Registry, s: State, e: string, d: Driver, calls: nat, fuel: nat)
    requires Stands(s, e, d) && fuel >= 1
    requires InteractiveOnly(reg, d.inst.chartDef) && d.inst.current in Names(d.inst.chartDef.states)
    requires d.pc.Deciding? && (d.resume.None? || !d.first) && d.inst.wakeOn == [] && d.inst.wakeAt == None
    ensures var end := Loop(reg, s, e, calls, fuel);
            && PcOf(end.state, e).Finished?
            && end.state.store.instances == s.store.instances[d.inst.id := Stamp(AtRest(d.inst), s.clock + 1)]
            && SameDeliveries(s, end.state)
  {
    hide InteractiveOnly, Decide, Ask, CallsExecutor, AtRest, Stamp, Loop, SameDeliveries, Names;
    ColdDecision(reg, d, calls);
    if CallsExecutor(reg, d) {
      AfterExecute(reg, s, e, d, calls, fuel);
      var d' := Decide(d, Ask(reg, d, calls));
      DecideKeepsIdentity(d, Ask(reg, d, calls));
      AfterClose(reg, s.(drivers := s.drivers[e := d']), e, d', calls + 1, fuel - 1);
      DeliveriesByStore(s, s.(drivers := s.drivers[e := d']), Loop(reg, s, e, calls, fuel).state);
    } else {
      AfterUncalled(reg, s, e, d, calls, fuel);
      var d' := Decide(d, Unregistered);
      DecideKeepsIdentity(d, Unregistered);
      AfterClose(reg, s.(drivers := s.drivers[e := d']), e, d', calls, fuel);
      DeliveriesByStore(s, s.(drivers := s.drivers[e := d']), Loop(reg, s, e, calls, fuel).state);
    }
  }

  // ---------------------------------------------------------------- one signal

  /** The claim, seen from a resting instance of an interactive chart. */
  lemma ClaimMatches(s: State, i: string, c: ChartDef, dfa: Dfa, call: Call)
    requires Inv(s) && Matches(s, i, c, dfa) && WellFormed(c)
    ensures ClaimIn(s.store, i, call.signal, NewExecution(call.e, i, OnSignal(call.signal), call.delivery), s.clock + 1).Admitted?
            <==> Claimed(c, dfa, call)
    ensures dfa.state in Names(c.states)
    ensures s.store.instances[i].status.Suspended? ==> s.store.instances[i].wakeOn == SignalsAt(c, dfa.state)
    ensures s.store.instances[i].id == i
  {
    hide Inv, RunningOK, HookOK, AgreeOutside, Reach;
    RowAndOwner(s, i);
    LookupOK(c, dfa.state);
  }

  /** The driver a successful claim admits. */
  ghost function Admitted(s: State, i: string, call: Call): Driver
    requires i in s.store.instances
  {
    var r := s.store.instances[i];
    var row := r.(status := Running, version := r.version + 1, updatedAt := s.clock + 1);
    Driver(Woken(row, call.data), Some(Resume(call.signal, call.data)), true, Deciding, Some(r), {row.current})
  }

  lemma AfterSignal(s: State, i: string, call: Call)
    requires i in s.store.instances
    requires ClaimIn(s.store, i, call.signal, NewExecution(call.e, i, OnSignal(call.signal), call.delivery), s.clock + 1).Admitted?
    ensures var t := DoSignal(s, i, call.signal, call.data, call.e, call.delivery);
            && Stands(t, call.e, Admitted(s, i, call)) && t.clock == s.clock + 1
            && t.store.executions.Keys == s.store.executions.Keys + {call.e}
            && t.store.executions[call.e].deliveryId == call.delivery
            && (forall f :: f in s.store.executions ==> f != call.e && t.store.executions[f] == s.store.executions[f])
            && i in t.store.instances
            && t.store.instances[i] == s.store.instances[i].(status := Running, version := s.store.instances[i].version + 1, updatedAt := s.clock + 1)
  {
  }

  /** A claim under a new delivery id spends exactly that id. */
  lemma ClaimSpends(s: State, t: State, e: string, delivery: Option<string>, d: string)
    requires t.store.executions.Keys == s.store.executions.Keys + {e} && t.store.executions[e].deliveryId == delivery
    requires forall f :: f in s.store.executions ==> f != e && t.store.executions[f].deliveryId == s.store.executions[f].deliveryId
    ensures DeliverySeen(t.store.executions, Some(d)) <==> DeliverySeen(s.store.executions, Some(d)) || delivery == Some(d)
  {
    if delivery == Some(d) { assert t.store.executions[e].deliveryId == Some(d); }
    if DeliverySeen(s.store.executions, Some(d)) {
      var f :| f in s.store.executions && s.store.executions[f].deliveryId == Some(d);
      assert f in t.store.executions && t.store.executions[f].deliveryId == Some(d);
    }
  }

  /** What the first, resumed iteration decides at an interactive task. */
  lemma ResumedDecision(reg: Registry, d: Driver, signal: string, data: Payload, calls: nat)
    requires InteractiveOnly(reg, d.inst.chartDef) && d.inst.current in Names(d.inst.chartDef.states)
    requires d.pc.Deciding? && d.first && d.resume == Some(Resume(signal, data)) && signal in SignalsAt(d.inst.chartDef, d.inst.current)
    ensures CallsExecutor(reg, d)
    ensures var d' := Decide(d, Ask(reg, d, calls));
            var next := Resolve(Lookup(d.inst.chartDef, d.inst.current).value.transitions, signal);
            next.Some?
            && if HasRequired(d.inst.chartDef, d.inst.current, data)
               then d' == d.(inst := d.inst.(current := next.value, wakeOn := [], wakeAt := None), pc := Saving, visited := d.visited + {next.value})
               else d' == d.(pc := Releasing)
  {
    TaskState(reg, d.inst.chartDef, d.inst.current);
    SignalRoutes(d.inst.chartDef, d.inst.current, signal);
    var st := Lookup(d.inst.chartDef, d.inst.current).value;
    FirstMissingMeaning(Required(st.config), data);
    hide WellFormed, Names, Lookup, Resolve, Required, FirstMissing;
    assert File(d.inst.payload, d.inst.current, map[]) == d.inst.payload;
  }

  lemma ReleaseEnds(t: State, e: string, d: Driver)
    requires Stands(t, e, d) && d.pc.Releasing? && d.inst.id in t.store.instances
    requires t.store.instances[d.inst.id].status.Running? && t.store.instances[d.inst.id].id == d.inst.id
    ensures var u := Settle(t, e);
            u.store.instances == t.store.instances[d.inst.id := Stamp(t.store.instances[d.inst.id].(status := Suspended), t.clock + 1)]
            && SameDeliveries(t, u)
  {
    hide Stamp, Disown;
  }

  /** The row an accepted signal leaves: moved once, its data filed under the state it left, at rest in the next. */
  ghost function Moved(r: InstanceRecord, next: string, data: Payload, now: nat): InstanceRecord {
    AtRest(r.(current := next, payload := File(r.payload, r.current, data), version := r.version + 3, updatedAt := now))
  }

  ghost predicate AcceptedTo(s: State, t: State, i: string, next: string, data: Payload) {
    i in s.store.instances && i in t.store.instances
    && t.store.instances[i] == Moved(s.store.instances[i], next, data, t.store.instances[i].updatedAt)
  }

  ghost predicate GivenBack(s: State, t: State, i: string) {
    i in s.store.instances && i in t.store.instances
    && t.store.instances[i] == s.store.instances[i].(version := s.store.instances[i].version + 2, updatedAt := t.store.instances[i].updatedAt)
  }

  lemma RejectedDrive(reg: Registry, s: State, i: string, c: ChartDef, call: Call, calls: nat, fuel: nat)
    requires fuel >= 2 && InteractiveOnly(reg, c) && i in s.store.instances && Claimable(s, i, c, call)
    requires !HasRequired(c, s.store.instances[i].current, call.data)
    ensures var t := DoSignal(s, i, call.signal, call.data, call.e, call.delivery);
            var u := Drive(reg, t, call.e, calls, fuel).state;
            GivenBack(s, u, i) && SameDeliveries(t, u)
  {
    hide InteractiveOnly, Loop, Settle, DoSignal, Decide, Ask, CallsExecutor, Resolve, Lookup, HasRequired, Names;
    AfterSignal(s, i, call);
    var t := DoSignal(s, i, call.signal, call.data, call.e, call.delivery);
    var d := Admitted(s, i, call);
    ResumedDecision(reg, d, call.signal, call.data, calls);
    AfterExecute(reg, t, call.e, d, calls, fuel);
    var d' := d.(pc := Releasing);
    var t' := t.(drivers := t.drivers[call.e := d']);
    LoopStops(reg, t', call.e, calls + 1, fuel - 1);
    ReleaseEnds(t', call.e, d');
  }

  lemma LoopStops(reg: Registry, t: State, e: string, calls: nat, fuel: nat)
    requires PcOf(t, e).Releasing?
    ensures Loop(reg, t, e, calls, fuel) == Ran(t, calls)
  {
  }

  /** What the claim needs of the row, the chart and the ids. */
  ghost predicate Claimable(s: State, i: string, c: ChartDef, call: Call)
    requires i in s.store.instances
  {
    var r := s.store.instances[i];
    && r.id == i && r.chartDef == c && r.current in Names(c.states) && r.createdAt >= 1 && r.status.Suspended?
    && call.signal in SignalsAt(c, r.current)
    && ClaimIn(s.store, i, call.signal, NewExecution(call.e, i, OnSignal(call.signal), call.delivery), s.clock + 1).Admitted?
  }

  lemma AcceptedDrive(reg: Registry, s: State, i: string, c: ChartDef, call: Call, calls: nat, fuel: nat)
    requires fuel >= 2 && InteractiveOnly(reg, c) && i in s.store.instances && Claimable(s, i, c, call)
    requires HasRequired(c, s.store.instances[i].current, call.data)
    ensures var t := DoSignal(s, i, call.signal, call.data, call.e, call.delivery);
            var u := Drive(reg, t, call.e, calls, fuel).state;
            var next := Resolve(Lookup(c, s.store.instances[i].current).value.transitions, call.signal);
            next.Some? && AcceptedTo(s, u, i, next.value, call.data) && SameDeliveries(t, u)
  {
    hide InteractiveOnly, Loop, DoSignal, DoSave, Resolve, Lookup, HasRequired, Names, AtRest, File, SameDeliveries;
    AfterSignal(s, i, call);
    var t := DoSignal(s, i, call.signal, call.data, call.e, call.delivery);
    NextDefined(reg, c, s.store.instances[i].current, call.signal);
    var w := AcceptedStep(reg, t, i, c, call, Admitted(s, i, call), calls, fuel);
    var d := MovedCopy(Admitted(s, i, call), call.signal, t.clock + 1);
    ColdDriveRests(reg, w, call.e, d, calls + 1, fuel - 1);
    StampedRest(s.store.instances[i], d.inst.current, call.data, s.clock);
    Settled(reg, t, call.e, calls, fuel);
    DeliveriesChain(t, w, Loop(reg, w, call.e, calls + 1, fuel - 1).state);
  }

  lemma DeliveriesChain(t: State, u: State, w: State)
    requires SameDeliveries(t, u) && SameDeliveries(u, w)
    ensures SameDeliveries(t, w)
  {
  }

  /** The driver after an accepted signal has been answered and the move saved. */
  ghost function MovedCopy(d: Driver, signal: string, now: nat): Driver {
    var st := Lookup(d.inst.chartDef, d.inst.current);
    var next := if st.Some? && Resolve(st.value.transitions, signal).Some? then Resolve(st.value.transitions, signal).value else "";
    d.(inst := Stamp(d.inst.(current := next, wakeOn := [], wakeAt := None), now), first := false, pc := Deciding, visited := d.visited + {next})
  }

  /** The first iteration of an accepted drive: the executor routes the signal, and the move is saved. */
  lemma AcceptedStep(reg: Registry, t: State, i: string, c: ChartDef, call: Call, d: Driver, calls: nat, fuel: nat) returns (w: State)
    requires fuel >= 2 && InteractiveOnly(reg, c) && Stands(t, call.e, d) && d.pc.Deciding?
    requires d.first && d.resume == Some(Resume(call.signal, call.data))
    requires d.inst.chartDef == c && d.inst.current in Names(c.states) && call.signal in SignalsAt(c, d.inst.current)
    requires HasRequired(c, d.inst.current, call.data) && d.inst.id in t.store.instances
    ensures Stands(w, call.e, MovedCopy(d, call.signal, t.clock + 1)) && w.clock == t.clock + 1 && SameDeliveries(t, w)
    ensures Loop(reg, t, call.e, calls, fuel) == Loop(reg, w, call.e, calls + 1, fuel - 1)
    ensures w.store.instances == t.store.instances[d.inst.id := MovedCopy(d, call.signal, t.clock + 1).inst]
  {
    hide InteractiveOnly, Loop, Decide, Ask, CallsExecutor, Resolve, Lookup, HasRequired, Names, Stamp;
    ResumedDecision(reg, d, call.signal, call.data, calls);
    AfterExecute(reg, t, call.e, d, calls, fuel);
    var d' := Decide(d, Ask(reg, d, calls));
    var t' := t.(drivers := t.drivers[call.e := d']);
    AfterSave(reg, t', call.e, d', calls + 1, fuel - 1);
    w := DoSave(t', call.e);
  }

  /** A drive that ended without an invalid-input error has nothing to release. */
  lemma Settled(reg: Registry, t: State, e: string, calls: nat, fuel: nat)
    requires PcOf(Loop(reg, t, e, calls, fuel).state, e).Finished?
    ensures Drive(reg, t, e, calls, fuel) == Loop(reg, t, e, calls, fuel)
  {
  }

  lemma NextDefined(reg: Registry, c: ChartDef, q: string, signal: string)
    requires InteractiveOnly(reg, c) && q in Names(c.states) && signal in SignalsAt(c, q)
    ensures Lookup(c, q).Some? && Resolve(Lookup(c, q).value.transitions, signal).Some?
    ensures Resolve(Lookup(c, q).value.transitions, signal).value in Names(c.states)
  {
    hide Lookup, Resolve, Names;
    SignalRoutes(c, q, signal);
    ResolvedIsEdge(c, q, signal);
  }

  /** Claim, save and close stamp the row three times. */
  lemma StampedRest(r: InstanceRecord, next: string, data: Payload, clock: nat)
    requires r.createdAt >= 1
    ensures var moved := Woken(r.(status := Running, version := r.version + 1, updatedAt := clock + 1), data).(
                           current := next, wakeOn := [], wakeAt := None);
            Stamp(AtRest(Stamp(moved, clock + 2)), clock + 3) == Moved(r, next, data, clock + 3)
  {
  }

  /** What a signal does to the payload: accepted data is filed under the state left; otherwise nothing. */
  ghost function FiledBy(c: ChartDef, dfa: Dfa, call: Call, p: Payload): Payload {
    if Claimed(c, dfa, call) && HasRequired(c, dfa.state, call.data) then File(p, dfa.state, call.data) else p
  }

  lemma ClaimableRow(s: State, i: string, c: ChartDef, dfa: Dfa, call: Call)
    requires Inv(s) && Matches(s, i, c, dfa) && WellFormed(c) && Claimed(c, dfa, call)
    ensures Claimable(s, i, c, call)
  {
    hide Inv, RunningOK, HookOK, AgreeOutside, Reach, Claimed;
    ClaimMatches(s, i, c, dfa, call);
    RowAndOwner(s, i);
  }

  /** A moved or given-back row, with the spent ids, is where one step of the automaton leads. */
  lemma StepLands(s: State, t: State, u: State, i: string, c: ChartDef, dfa: Dfa, call: Call)
    requires WellFormed(c) && Matches(s, i, c, dfa) && Claimed(c, dfa, call) && SameDeliveries(t, u)
    requires t.store.executions.Keys == s.store.executions.Keys + {call.e}
    requires t.store.executions[call.e].deliveryId == call.delivery
    requires forall f :: f in s.store.executions ==> f != call.e && t.store.executions[f].deliveryId == s.store.executions[f].deliveryId
    requires Lookup(c, dfa.state).Some?
    requires var next := Resolve(Lookup(c, dfa.state).value.transitions, call.signal);
             next.Some? && if HasRequired(c, dfa.state, call.data) then AcceptedTo(s, u, i, next.value, call.data) else GivenBack(s, u, i)
    requires !HasRequired(c, dfa.state, call.data) ==> s.store.instances[i].status.Suspended?
    ensures Matches(u, i, c, Step(c, dfa, call))
    ensures u.store.instances[i].payload == FiledBy(c, dfa, call, s.store.instances[i].payload)
  {
    hide HasRequired, Lookup, Resolve, Claimed, WellFormed, File;
    forall d ensures DeliverySeen(u.store.executions, Some(d)) <==> DeliverySeen(s.store.executions, Some(d)) || call.delivery == Some(d) {
      ClaimSpends(s, t, call.e, call.delivery, d);
      DeliveriesCarry(t, u, Some(d));
    }
    hide DeliverySeen;
  }

  /**
   * One SignalInstance call, run to completion, is one step of the automaton. A signal the state does not wait on, or
   * one under a used execution or delivery id, changes nothing at all; one lacking a required field gives the claim back.
   * An accepted signal's data, unless empty, becomes the payload's entry for the state left, and no other entry changes.
   */
  lemma OneSignal(reg: Registry, s: State, i: string, c: ChartDef, dfa: Dfa, call: Call, calls: nat, fuel: nat)
    requires fuel >= 2 && Inv(s) && InteractiveOnly(reg, c) && Matches(s, i, c, dfa)
    ensures var t := SignalRun(reg, s, i, call.signal, call.data, call.e, call.delivery, calls, fuel).state;
            && Matches(t, i, c, Step(c, dfa, call))
            && var p, q := s.store.instances[i].payload, t.store.instances[i].payload;
            && (if Claimed(c, dfa, call) && HasRequired(c, dfa.state, call.data) && call.data != map[]
                then dfa.state in q && q[dfa.state] == Object(call.data) && forall k :: k != dfa.state ==> Agree(q, p, k)
                else q == p)
            && (!Claimed(c, dfa, call) ==> t == s)
            && (Claimed(c, dfa, call) && !HasRequired(c, dfa.state, call.data) ==> GivenBack(s, t, i))
  {
    hide Inv, Drive, DoSignal, Claimed, HasRequired, Resolve, Lookup, Names, AtRest, ClaimIn;
    ClaimMatches(s, i, c, dfa, call);
    if Claimed(c, dfa, call) {
      ClaimableRow(s, i, c, dfa, call);
      AfterSignal(s, i, call);
      NextDefined(reg, c, dfa.state, call.signal);
      var t := DoSignal(s, i, call.signal, call.data, call.e, call.delivery);
      if HasRequired(c, dfa.state, call.data) {
        AcceptedDrive(reg, s, i, c, call, calls, fuel);
      } else {
        RejectedDrive(reg, s, i, c, call, calls, fuel);
      }
      StepLands(s, t, Drive(reg, t, call.e, calls, fuel).state, i, c, dfa, call);
    } else {
      StepIdle(c, dfa, call);
    }
  }

  lemma StepIdle(c: ChartDef, dfa: Dfa, call: Call)
    requires !Claimed(c, dfa, call)
    ensures Step(c, dfa, call) == dfa
  {
  }

  /**
   * The refinement to a plain automaton: after any sequence of SignalInstance calls the instance stands at the fold of
   * the first-match transition function over the accepted signals, done if that state is terminal and suspended
   * otherwise; no signal ever leads to failed. No drive needs more than two executor calls.
   */
  lemma {:induction false} SignalsFold(reg: Registry, s: State, i: string, c: ChartDef, dfa: Dfa, calls: seq<Call>, count: nat,
                                       fuel: nat)
    requires fuel >= 2 && Inv(s) && InteractiveOnly(reg, c) && Matches(s, i, c, dfa)
    ensures var t := SignalAll(reg, s, i, calls, count, fuel).state; Inv(t) && Matches(t, i, c, Fold(c, dfa, calls))
    decreases |calls|
  {
    hide Inv, InteractiveOnly, Matches, SignalRun, Step;
    if calls != [] {
      var before := calls[..|calls| - 1];
      var call := calls[|calls| - 1];
      SignalsFold(reg, s, i, c, dfa, before, count, fuel);
      var mid := SignalAll(reg, s, i, before, count, fuel);
      OneSignal(reg, mid.state, i, c, Fold(c, dfa, before), call, mid.calls, fuel);
      SignalRunKeeps(reg, mid.state, i, call.signal, call.data, call.e, call.delivery, mid.calls, fuel);
    }
  }

  /**
   * Start brings a new instance of an interactive chart to rest at its initial state, ready for the fold; under an
   * instance or execution id already taken it changes nothing.
   */
  lemma StartRests(reg: Registry, s: State, id: string, c: ChartDef, payload: Payload, e: string, calls: nat, fuel: nat, spent: set<string>)
    requires fuel >= 1 && Inv(s) && InteractiveOnly(reg, c)
    requires forall d :: d in spent <==> DeliverySeen(s.store.executions, Some(d))
    ensures var t := StartRun(reg, s, id, c, payload, e, calls, fuel).state;
            if id in s.store.instances || e in s.store.executions then t == s
            else
              && Inv(t) && Matches(t, id, c, Dfa(c.initial, spent, s.store.executions.Keys + {e}))
              && t.store.instances[id].payload == payload
  {
    hide Inv, Loop, InteractiveOnly, DoStart;
    if id in s.store.instances || e in s.store.executions { return; }
    NoDelivery(s.store.executions);
    var t := DoStart(s, id, c, payload, e);
    AfterStart(s, id, c, payload, e);
    Interactives(reg, c);
    StartKeeps(s, id, c, payload, e);
    var row := FreshRow(id, c, payload).(createdAt := s.clock + 1, updatedAt := s.clock + 1, version := 1);
    ColdDriveRests(reg, t, e, Driver(row, None, true, Deciding, None, {c.initial}), calls, fuel);
    DriveKeeps(reg, t, e, calls, fuel);
    var u := Loop(reg, t, e, calls, fuel).state;
    forall d ensures DeliverySeen(u.store.executions, Some(d)) == DeliverySeen(s.store.executions, Some(d)) {
      ClaimSpends(s, t, e, None, d);
      DeliveriesCarry(t, u, Some(d));
    }
  }

  // ---------------------------------------------------------------- call after call

  /** The delivery ids on record. */
  function SpentIds(st: Store): set<string> {
    set e | e in st.executions && st.executions[e].deliveryId.Some? :: st.executions[e].deliveryId.value
  }

  /** Whatever calls brought the instance where it stands, it now stands where one more call takes the fold. */
  ghost predicate FoldsOn(reg: Registry, s: State, t: State, i: string, call: Call) {
    forall c, dfa, calls :: InteractiveOnly(reg, c) && Matches(s, i, c, Fold(c, dfa, calls)) ==> Matches(t, i, c, Fold(c, dfa, calls + [call]))
  }

  lemma SignalFolds(reg: Registry, s: State, i: string, call: Call, count: nat, fuel: nat)
    requires Inv(s) && fuel >= 2
    ensures FoldsOn(reg, s, SignalRun(reg, s, i, call.signal, call.data, call.e, call.delivery, count, fuel).state, i, call)
  {
    hide Inv, InteractiveOnly, Matches, SignalRun, Step;
    var t := SignalRun(reg, s, i, call.signal, call.data, call.e, call.delivery, count, fuel).state;
    forall c, dfa, calls | InteractiveOnly(reg, c) && Matches(s, i, c, Fold(c, dfa, calls))
      ensures Matches(t, i, c, Fold(c, dfa, calls + [call]))
    {
      OneSignal(reg, s, i, c, Fold(c, dfa, calls), call, count, fuel);
      assert (calls + [call])[..|calls|] == calls;
    }
  }

  /** Where the fold begins. */
  ghost predicate FoldBegins(reg: Registry, s: State, t: State, id: string, c: ChartDef, e: string) {
    InteractiveOnly(reg, c) && id !in s.store.instances && e !in s.store.executions ==>
      Matches(t, id, c, Fold(c, Dfa(c.initial, SpentIds(s.store), s.store.executions.Keys + {e}), []))
  }

  lemma StartFolds(reg: Registry, s: State, id: string, c: ChartDef, payload: Payload, e: string, count: nat, fuel: nat)
    requires Inv(s) && fuel >= 1
    ensures FoldBegins(reg, s, StartRun(reg, s, id, c, payload, e, count, fuel).state, id, c, e)
  {
    hide Inv, InteractiveOnly, Matches, StartRun;
    if InteractiveOnly(reg, c) {
      SpentMeansSeen(s.store);
      StartRests(reg, s, id, c, payload, e, count, fuel, SpentIds(s.store));
    }
  }

  lemma SpentMeansSeen(st: Store)
    ensures forall d :: d in SpentIds(st) <==> DeliverySeen(st.executions, Some(d))
  {
    forall d ensures d in SpentIds(st) <==> DeliverySeen(st.executions, Some(d)) {
      if DeliverySeen(st.executions, Some(d)) {
        var e :| e in st.executions && st.executions[e].deliveryId == Some(d);
        assert st.executions[e].deliveryId.value in SpentIds(st);
      }
    }
  }

  lemma Interactives(reg: Registry, c: ChartDef)
    requires InteractiveOnly(reg, c)
    ensures WellFormed(c) && c.initial in Names(c.states)
  {
  }

  lemma AfterStart(s: State, id: string, c: ChartDef, payload: Payload, e: string)
    requires id !in s.store.instances && e !in s.store.executions
    ensures var row := FreshRow(id, c, payload).(createdAt := s.clock + 1, updatedAt := s.clock + 1, version := 1);
            var t := DoStart(s, id, c, payload, e);
            && Stands(t, e, Driver(row, None, true, Deciding, None, {c.initial}))
            && t.store.executions.Keys == s.store.executions.Keys + {e} && t.store.executions[e].deliveryId == None
            && (forall f :: f in s.store.executions ==> f != e && t.store.executions[f] == s.store.executions[f])
  {
    assert !DeliverySeen(s.store.executions, None);
  }
}
