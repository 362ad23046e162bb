/** What the invariant gives: the protocol's promises about every legal run. */
module Guarantees {
  import opened Prelude
  import opened Charts
  import opened Stores
  import opened Protocol
  import opened Invariant
  import opened Preservation
  import opened Steps

  // ---------------------------------------------------------------- what one step can do to a row

  /** The only ways a stored row changes: claimed, advanced, parked, or finished; always exactly one version up. */
  ghost predicate Rewritten(r: InstanceRecord, r': InstanceRecord) {
    && SamePin(r, r') && r'.version == r.version + 1
    && ((r.status.Suspended? && JustClaimed(r, r')) || r.status.Running?)
  }

  ghost predicate Created(r: InstanceRecord) {
    r.version == 1 && r.status.Running? && WellFormed(r.chartDef) && r.current == r.chartDef.initial
  }

  ghost predicate RowStep(s: State, t: State, i: string) {
    if i in s.store.instances then
      i in t.store.instances
      && (t.store.instances[i] == s.store.instances[i] || Rewritten(s.store.instances[i], t.store.instances[i]))
    else i in t.store.instances ==> Created(t.store.instances[i])
  }

  lemma CloseEffect(s: State, e: string, i: string)
    requires Inv(s) && e in s.drivers && (s.drivers[e].pc.Closing? || s.drivers[e].pc.ReleaseClosing?)
    ensures RowStep(s, if s.drivers[e].pc.Closing? then DoClose(s, e) else DoReleaseClose(s, e), i)
  {
    hide InstancesOK, ExecutionsOK, PassesOK, DeliveriesUnique, OnChart, AgreeOutside, NoticeOK, SameNotices, RestOK;
    BusyOwns(s, e);
    if s.drivers[e].pc.Closing? { CloseIsShut(s, e); } else { ReleaseIsShut(s, e); }
  }

  lemma SaveEffect(s: State, e: string, i: string)
    requires Inv(s)
    ensures RowStep(s, DoSave(s, e), i)
  {
    hide InstancesOK, ExecutionsOK, PassesOK, DeliveriesUnique, OnChart, AgreeOutside, OriginOK, TrackOK, HookOK;
    if e in s.drivers && s.drivers[e].pc.Saving? { BusyOwns(s, e); }
  }

  lemma PassCloseEffect(s: State, r: string, i: string)
    requires Inv(s)
    ensures RowStep(s, DoPassClose(s, r), i)
  {
    hide InstancesOK, ExecutionsOK, DeliveriesUnique, OnChart, AgreeOutside, NoticeOK, SameNotices, RestOK, OwnerOK;
    if r in s.passes && s.passes[r].pc.Writing? {
      PassCloseShuts(s, r);
      assert PassOK(s, r);
      VictimRuns(s, s.passes[r].pc.x);
    }
  }

  lemma SignalEffect(s: State, id: string, signal: string, data: Payload, e: string, delivery: Option<string>, i: string)
    requires Inv(s)
    ensures RowStep(s, DoSignal(s, id, signal, data, e, delivery), i)
  {
    hide InstancesOK, ExecutionsOK, PassesOK, DeliveriesUnique, DeliverySeen;
    if id in s.store.instances { RowId(s, id); }
  }

  lemma StepEffect(s: State, a: Action, i: string)
    requires Inv(s) && Legal(s, a)
    ensures RowStep(s, Next(s, a), i)
  {
    hide Inv, SamePin, JustClaimed, DoSave, DoClose, DoReleaseClose, DoPassClose, DoSignal, WellFormed, DeliverySeen, LeaseMeansDead,
         NoPassActive, DoExecute, DoHook, DoReleaseLoad, DoDie, DoScan, DoPassLoad, DoPassSearch, DoPassHook, DoPassDie;
    match a
    case Signal(id, signal, data, e, delivery) => SignalEffect(s, id, signal, data, e, delivery, i);
    case SaveStep(e) => SaveEffect(s, e, i);
    case CloseStep(e) =>
      if e in s.drivers && s.drivers[e].pc.Closing? { CloseEffect(s, e, i); } else { assert DoClose(s, e) == s by { NoClose(s, e); } }
    case ReleaseClose(e) =>
      if e in s.drivers && s.drivers[e].pc.ReleaseClosing? { CloseEffect(s, e, i); } else { assert DoReleaseClose(s, e) == s by { NoClose(s, e); } }
    case PassClose(r) => PassCloseEffect(s, r, i);
    case Start(_, _, _, _) =>
    case _ => QuietActions(s, a);
  }

  lemma NoClose(s: State, e: string)
    ensures e !in s.drivers || !s.drivers[e].pc.Closing? ==> DoClose(s, e) == s
    ensures e !in s.drivers || !s.drivers[e].pc.ReleaseClosing? ==> DoReleaseClose(s, e) == s
  {
  }

  ghost predicate StepAt(states: seq<State>, acts: seq<Action>, k: nat)
    requires |states| == |acts| + 1 && k < |acts|
  {
    Legal(states[k], acts[k]) && states[k + 1] == Next(states[k], acts[k])
  }

  /** The states a legal run passes through. */
  ghost predicate Passes(states: seq<State>, acts: seq<Action>) {
    |states| == |acts| + 1 && forall k {:trigger StepAt(states, acts, k)} :: 0 <= k < |acts| ==> StepAt(states, acts, k)
  }

  /** Some legal run, of whatever length and interleaving, ends in this state. */
  ghost predicate Reached(s: State) {
    exists states, acts :: Passes(states, acts) && states[0] == Initial && states[|acts|] == s
  }

  lemma {:induction false} PassesIsRun(states: seq<State>, acts: seq<Action>, n: nat)
    requires Passes(states, acts) && n <= |acts|
    ensures LegalRun(states[0], acts[..n]) && Run(states[0], acts[..n]) == states[n]
  {
    hide Next, Legal;
    if n > 0 {
      PassesIsRun(states, acts, n - 1);
      assert acts[..n][..n - 1] == acts[..n - 1];
      assert StepAt(states, acts, n - 1);
    }
  }

  lemma {:induction false} RunPasses(acts: seq<Action>) returns (states: seq<State>)
    requires LegalRun(Initial, acts)
    ensures Passes(states, acts) && states[0] == Initial && states[|acts|] == Run(Initial, acts)
    decreases |acts|
  {
    hide Next, Legal;
    if acts == [] {
      states := [Initial];
    } else {
      var n := |acts| - 1;
      var before := RunPasses(acts[..n]);
      states := before + [Run(Initial, acts)];
      assert Run(Initial, acts) == AfterLast(Initial, acts);
      forall k: nat | k < |acts| ensures StepAt(states, acts, k) {
        if k < n {
          assert StepAt(before, acts[..n], k);
        } else {
          assert states[k] == Run(Initial, acts[..n]) && states[k + 1] == Run(Initial, acts);
        }
      }
    }
  }

  /** Reached is having been run to. */
  lemma ReachedIsRun(s: State)
    ensures Reached(s) <==> exists acts :: LegalRun(Initial, acts) && s == Run(Initial, acts)
  {
    hide Run, LegalRun, StepAt;
    if Reached(s) {
      var states, acts :| Passes(states, acts) && states[0] == Initial && states[|acts|] == s;
      PassesIsRun(states, acts, |acts|);
      assert acts[..|acts|] == acts;
    }
    if acts :| LegalRun(Initial, acts) && s == Run(Initial, acts) {
      var states := RunPasses(acts);
    }
  }

  lemma ReachedInv(s: State)
    requires Reached(s)
    ensures Inv(s)
  {
    hide Inv, Run, LegalRun, Reached;
    ReachedIsRun(s);
    var acts :| LegalRun(Initial, acts) && s == Run(Initial, acts);
    RunKeeps(acts);
  }

  // ---------------------------------------------------------------- runs joined end to end

  /** Some legal run leads from one state to the other. */
  ghost predicate Leads(s: State, t: State) {
    exists acts :: LegalRun(s, acts) && t == Run(s, acts)
  }

  lemma LeadsNowhere(s: State)
    ensures Leads(s, s)
  {
    assert LegalRun(s, []) && s == Run(s, []);
  }

  lemma InitialReached()
    ensures Reached(Initial)
  {
    var states: seq<State>, acts: seq<Action> := [Initial], [];
    assert Passes(states, acts) && states[0] == Initial && states[|acts|] == Initial;
  }

  lemma LeadsStep(s: State, a: Action)
    requires Legal(s, a)
    ensures Leads(s, Next(s, a))
  {
    hide Next, Legal;
    assert [a][..0] == [];
    assert Run(s, [a]) == AfterLast(s, [a]);
    assert LegalRun(s, [a]) && Next(s, a) == Run(s, [a]);
  }

  lemma {:induction false} RunsJoin(s: State, acts: seq<Action>, more: seq<Action>)
    requires LegalRun(s, acts) && LegalRun(Run(s, acts), more)
    ensures LegalRun(s, acts + more) && Run(s, acts + more) == Run(Run(s, acts), more)
    decreases |more|
  {
    hide Next, Legal;
    if more == [] {
      assert acts + more == acts;
    } else {
      RunsJoin(s, acts, more[..|more| - 1]);
      assert (acts + more)[..|acts + more| - 1] == acts + more[..|more| - 1];
    }
  }

  lemma LeadsJoin(s: State, t: State, u: State)
    requires Leads(s, t) && Leads(t, u)
    ensures Leads(s, u)
  {
    hide Run, LegalRun;
    var acts :| LegalRun(s, acts) && t == Run(s, acts);
    var more :| LegalRun(t, more) && u == Run(t, more);
    RunsJoin(s, acts, more);
  }

  lemma ReachedJoin(s: State, t: State)
    requires Reached(s) && Leads(s, t)
    ensures Reached(t)
  {
    hide Run, LegalRun, Reached;
    ReachedIsRun(s);
    ReachedIsRun(t);
    var acts :| LegalRun(Initial, acts) && s == Run(Initial, acts);
    var more :| LegalRun(s, more) && t == Run(s, more);
    RunsJoin(Initial, acts, more);
  }

  lemma {:induction false} RunKeepsFrom(s: State, acts: seq<Action>)
    requires Inv(s) && LegalRun(s, acts)
    ensures Inv(Run(s, acts))
    decreases |acts|
  {
    hide Inv, Next, Legal;
    if acts != [] {
      RunKeepsFrom(s, acts[..|acts| - 1]);
      NextKeeps(Run(s, acts[..|acts| - 1]), acts[|acts| - 1]);
    }
  }

  lemma LeadsKeeps(s: State, t: State)
    requires Inv(s) && Leads(s, t)
    ensures Inv(t)
  {
    hide Inv, Run, LegalRun;
    var acts :| LegalRun(s, acts) && t == Run(s, acts);
    RunKeepsFrom(s, acts);
  }

  // ---------------------------------------------------------------- ownership

  function OpenOf(st: Store, i: string): set<string> {
    set e | e in st.executions && st.executions[e].instanceId == i && st.executions[e].outcome.None?
  }

  /** An instance is running exactly when one execution for it has no outcome; otherwise none is open. */
  lemma ExclusiveOwnership(s: State, i: string)
    requires Reached(s) && i in s.store.instances
    ensures |OpenOf(s.store, i)| == (if s.store.instances[i].status.Running? then 1 else 0)
  {
    hide Inv;
    ReachedInv(s);
    OpenIsOwner(s, i);
  }

  lemma OpenIsOwner(s: State, i: string)
    requires Inv(s) && i in s.store.instances
    ensures OpenOf(s.store, i) == (if i in s.owner then {s.owner[i]} else {})
    ensures s.store.instances[i].status.Running? <==> i in s.owner
  {
    hide InstancesOK, PassesOK, DeliveriesUnique, ClosedOK, RunningOK, HookOK;
    RowAndOwner(s, i);
    forall e | e in s.store.executions && s.store.executions[e].instanceId == i
      ensures s.store.executions[e].outcome.None? <==> Owns(s, e, i)
    {
      assert ExecutionOK(s, e);
    }
    if i in s.owner { OwnerStands(s, i); }
  }

  /** The lease of a running instance's execution is as old as the instance's last write. */
  lemma LeaseTracksWrites(s: State, before: nat, e: string)
    requires Reached(s)
    ensures e in Expired(s.store, before) <==>
            e in s.store.executions && s.store.executions[e].outcome.None? && s.store.executions[e].instanceId in s.store.instances
            && s.store.instances[s.store.executions[e].instanceId].status.Running?
            && s.store.instances[s.store.executions[e].instanceId].updatedAt < before
  {
    hide InstancesOK, PassesOK, DeliveriesUnique, ClosedOK, RowOK, HookOK, OwnerOK;
    ReachedInv(s);
    if e in s.store.executions {
      assert ExecutionOK(s, e);
      var i := s.store.executions[e].instanceId;
      RowAndOwner(s, i);
      OpenIsOwner(s, i);
      if i in s.owner { OwnerStands(s, i); }
    }
  }

  /** The step admits a drive of instance `i`: a Start accepted, or a signal that won its claim. */
  predicate Drives(s: State, a: Action, i: string) {
    match a
    case Start(id, chart, payload, e) =>
      id == i && StartIn(s.store, FreshRow(id, chart, payload), NewExecution(e, id, OnStart, None), s.clock + 1).Admitted?
    case Signal(id, signal, data, e, delivery) =>
      id == i && ClaimIn(s.store, id, signal, NewExecution(e, id, OnSignal(signal), delivery), s.clock + 1).Admitted?
    case _ => false
  }

  predicate RunningAt(s: State, i: string) {
    i in s.store.instances && s.store.instances[i].status.Running?
  }

  /** The step brings instance `i` to rest: parked, done, failed, or rolled back. */
  predicate Rests(s: State, a: Action, i: string) {
    RunningAt(s, i) && !RunningAt(Next(s, a), i)
  }

  ghost function DriveCount(acts: seq<Action>, i: string): nat
    decreases |acts|
  {
    if acts == [] then 0
    else DriveCount(acts[..|acts| - 1], i) + Count(Drives(Run(Initial, acts[..|acts| - 1]), acts[|acts| - 1], i))
  }

  ghost function RestCount(acts: seq<Action>, i: string): nat
    decreases |acts|
  {
    if acts == [] then 0
    else RestCount(acts[..|acts| - 1], i) + Count(Rests(Run(Initial, acts[..|acts| - 1]), acts[|acts| - 1], i))
  }

  /**
   * Drives and rests alternate: at every moment of a run, an instance has begun exactly as many drives as it
   * has come to rest, plus one if it is running. So between two consecutive parks exactly one claim succeeds,
   * however many signals are delivered.
   */
  lemma {:induction false} DrivesAlternate(acts: seq<Action>, i: string)
    requires LegalRun(Initial, acts)
    ensures DriveCount(acts, i) == RestCount(acts, i) + Count(RunningAt(Run(Initial, acts), i))
    decreases |acts|
  {
    hide Inv, Next, Legal, RunningAt, Drives;
    if acts == [] {
      assert !RunningAt(Initial, i) by { NothingRuns(i); }
    } else {
      var before := acts[..|acts| - 1];
      DrivesAlternate(before, i);
      RunKeeps(before);
      DriveBegins(Run(Initial, before), acts[|acts| - 1], i);
    }
  }

  lemma NothingRuns(i: string)
    ensures !RunningAt(Initial, i)
  {
  }

  /** A step begins a drive of `i` exactly when it turns `i` from not running to running. */
  lemma DriveBegins(s: State, a: Action, i: string)
    requires Inv(s) && Legal(s, a)
    ensures Drives(s, a, i) <==> !RunningAt(s, i) && RunningAt(Next(s, a), i)
  {
    hide Inv, DoExecute, DoSave, DoClose, DoReleaseClose, DoPassClose, DeliverySeen, WellFormed, LeaseMeansDead, NoPassActive;
    if a.Start? || a.Signal? {
      if i in s.store.instances { RowId(s, i); }
    } else {
      OnlyRunningWritten(s, a, i);
    }
  }

  /** Apart from Start and Signal, a step writes only rows of running instances. */
  ghost predicate OnlyRunning(s: State, t: State, i: string) {
    !RunningAt(s, i) ==> Agree(t.store.instances, s.store.instances, i)
  }

  lemma LiveWrite(s: State, e: string, i: string)
    requires Inv(s)
    ensures OnlyRunning(s, DoSave(s, e), i) && OnlyRunning(s, DoClose(s, e), i) && OnlyRunning(s, DoReleaseClose(s, e), i)
  {
    hide InstancesOK, ExecutionsOK, PassesOK, DeliveriesUnique, OwnerOK, RowOK, RunningOK, HookOK, Stamp, CloseRow;
    if e in s.drivers {
      var pc := s.drivers[e].pc;
      if pc.Saving? || pc.Closing? || pc.ReleaseClosing? { BusyOwns(s, e); }
      if pc.ReleaseClosing? { ReleaseIsShut(s, e); }
    }
  }

  lemma PassWrite(s: State, r: string, i: string)
    requires Inv(s)
    ensures OnlyRunning(s, DoPassClose(s, r), i)
  {
    hide InstancesOK, ExecutionsOK, DeliveriesUnique, OwnerOK, RowOK, RunningOK, HookOK, Stamp, CloseRow;
    if r in s.passes && s.passes[r].pc.Writing? {
      assert PassOK(s, r);
      VictimRuns(s, s.passes[r].pc.x);
    }
  }

  /** The steps that write nothing to the store. */
  lemma QuietActions(s: State, a: Action)
    requires !a.Start? && !a.Signal? && !a.SaveStep? && !a.CloseStep? && !a.ReleaseClose? && !a.PassClose?
    ensures Next(s, a).store == s.store && Next(s, a).parks == s.parks
  {
    hide Decide, DoScan, DoPassLoad, DoPassSearch, DoPassHook, DoPassDie, InvalidInput;
    match a
    case Scan(r, before, order) => QuietFinders(s, r, before, order, "");
    case PassLoad(r) => QuietFinders(s, r, 0, [], "");
    case PassSearch(r, at) => QuietFinders(s, r, 0, [], at);
    case PassHook(r) => QuietEnds(s, r);
    case PassDie(r) => QuietEnds(s, r);
    case _ =>
  }

  lemma QuietFinders(s: State, r: string, before: nat, order: seq<string>, at: string)
    ensures DoScan(s, r, before, order) == s.(passes := DoScan(s, r, before, order).passes)
    ensures DoPassLoad(s, r) == s.(passes := DoPassLoad(s, r).passes)
    ensures DoPassSearch(s, r, at) == s.(passes := DoPassSearch(s, r, at).passes)
  {
    QuietSearch(s, r, at);
    hide NeverParked, LastPark, Enumerates, Expired, Active, DoPassSearch;
  }

  lemma QuietSearch(s: State, r: string, at: string)
    ensures DoPassSearch(s, r, at) == s.(passes := DoPassSearch(s, r, at).passes)
  {
    hide NeverParked, LastPark;
  }

  lemma QuietEnds(s: State, r: string)
    ensures DoPassHook(s, r).store == DoPassDie(s, r).store == s.store
    ensures DoPassHook(s, r).parks == DoPassDie(s, r).parks == s.parks
  {
  }

  lemma OnlyRunningWritten(s: State, a: Action, i: string)
    requires Inv(s) && !a.Start? && !a.Signal?
    ensures OnlyRunning(s, Next(s, a), i)
  {
    hide Inv, RunningAt, DoSave, DoClose, DoReleaseClose, DoPassClose, DoExecute, DoHook, DoReleaseLoad, DoDie, DoScan, DoPassLoad, DoPassSearch,
         DoPassHook, DoPassDie;
    match a
    case SaveStep(e) => LiveWrite(s, e, i);
    case CloseStep(e) => LiveWrite(s, e, i);
    case ReleaseClose(e) => LiveWrite(s, e, i);
    case PassClose(r) => PassWrite(s, r, i);
    case _ => QuietActions(s, a);
  }
}
