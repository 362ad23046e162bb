/** The completion hook, over whole runs with crashes. */
module Notices {
  import opened Stores
  import opened Protocol
  import opened Invariant
  import opened Preservation
  import opened Steps
  import opened Guarantees

  /**
   * The hook fires at most once per instance, and never before the instance is final. For a final instance it has
   * fired exactly once unless the call is still pending or was lost to a crash; those three exclude each other.
   */
  lemma HookAtMostOnce(s: State, i: string)
    requires Reached(s)
    ensures s.hooks[i] <= 1
    ensures s.hooks[i] == 1 <==>
            i in s.store.instances && Final(s.store.instances[i].status) && !HookPending(s, i) && i !in s.lost
    ensures i in s.lost ==> s.hooks[i] == 0 && !HookPending(s, i)
  {
    hide InstancesOK, ExecutionsOK, PassesOK, DeliveriesUnique, RowOK, RunningOK, HookPending, Reached;
    ReachedInv(s);
    if i in s.store.instances { RowAndOwner(s, i); }
  }

  /** The step kills a driver, or a pass, between its closing write and its hook call. */
  predicate KillsNotice(s: State, a: Action) {
    match a
    case Die(e) => e in s.drivers && s.drivers[e].pc.Hooking?
    case PassDie(r) => r in s.passes && s.passes[r].pc.Announcing?
    case _ => false
  }

  ghost predicate NoticesSpared(acts: seq<Action>)
    decreases |acts|
  {
    acts == [] || (NoticesSpared(acts[..|acts| - 1]) && !KillsNotice(Run(Initial, acts[..|acts| - 1]), acts[|acts| - 1]))
  }

  /**
   * Over a run, every final instance's hook call is made once or is its closer's next step, if and only if no crash
   * of the run fell between a closing write and its hook call.
   */
  lemma HookExactlyOnce(acts: seq<Action>)
    requires LegalRun(Initial, acts)
    ensures var s := Run(Initial, acts);
            NoticesSpared(acts) <==>
            forall i :: i in s.store.instances && Final(s.store.instances[i].status) ==> s.hooks[i] + Count(HookPending(s, i)) == 1
  {
    hide Inv, HookPending, Run, LegalRun, Final;
    var s := Run(Initial, acts);
    RunKeeps(acts);
    LostIffKilled(acts);
    forall i | i in s.store.instances && Final(s.store.instances[i].status)
      ensures s.hooks[i] + Count(HookPending(s, i)) == 1 <==> i !in s.lost
    {
      HookRow(s, i);
    }
    forall i | i in s.lost ensures i in s.store.instances && Final(s.store.instances[i].status) { LostIsFinal(s, i); }
  }

  lemma LostIsFinal(s: State, i: string)
    requires Inv(s) && i in s.lost
    ensures i in s.store.instances && Final(s.store.instances[i].status)
  {
    hide InstancesOK, RowOK, RunningOK, ExecutionsOK, PassesOK, DeliveriesUnique;
    assert i in s.store.instances;
    HookRow(s, i);
  }

  lemma HookRow(s: State, i: string)
    requires Inv(s) && i in s.store.instances
    ensures HookOK(s, i)
  {
    hide RowOK, RunningOK, HookOK, ExecutionsOK, PassesOK, DeliveriesUnique;
    assert InstanceOK(s, i);
  }

  /** A crash between closing write and hook loses a call, nothing else does, and what is lost stays lost. */
  lemma {:induction false} LostIffKilled(acts: seq<Action>)
    ensures NoticesSpared(acts) <==> Run(Initial, acts).lost == {}
    decreases |acts|
  {
    hide Next, KillsNotice;
    if acts != [] {
      var s := Run(Initial, acts[..|acts| - 1]);
      LostIffKilled(acts[..|acts| - 1]);
      LosesByKilling(s, acts[|acts| - 1]);
    }
  }

  lemma LosesByKilling(s: State, a: Action)
    ensures if KillsNotice(s, a) then Next(s, a).lost != {} else Next(s, a).lost == s.lost
    ensures s.lost <= Next(s, a).lost
  {
    hide DoStart, DoSignal, DoDie, DoScan, DoPassLoad, DoPassSearch, DoPassClose, DoPassHook, DoPassDie, DoSave, DoClose, DoReleaseClose,
         DoReleaseLoad, DoHook, DoExecute;
    match a
    case Execute(e, _) => DriverLosesNone(s, e);
    case SaveStep(e) => DriverLosesNone(s, e);
    case CloseStep(e) => DriverLosesNone(s, e);
    case HookStep(e) => DriverLosesNone(s, e);
    case ReleaseLoad(e) => DriverLosesNone(s, e);
    case ReleaseClose(e) => DriverLosesNone(s, e);
    case Scan(r, before, order) => QuietFinders(s, r, before, order, "");
    case PassLoad(r) => QuietFinders(s, r, 0, [], "");
    case PassSearch(r, at) => QuietFinders(s, r, 0, [], at);
    case PassClose(r) => PassLosesByDying(s, r);
    case PassHook(r) => PassLosesByDying(s, r);
    case PassDie(r) => PassLosesByDying(s, r);
    case Start(id, chart, payload, e) => AdmissionsLoseNone(s, a);
    case Signal(id, signal, data, e, delivery) => AdmissionsLoseNone(s, a);
    case Die(e) => DyingLoses(s, e);
    case Tick(_) =>
  }

  lemma AdmissionsLoseNone(s: State, a: Action)
    requires a.Start? || a.Signal?
    ensures Next(s, a).lost == s.lost
  {
    hide ClaimIn, StartIn, Woken;
  }

  lemma DyingLoses(s: State, e: string)
    ensures DoDie(s, e).lost == (if KillsNotice(s, Die(e)) then s.lost + {s.drivers[e].inst.id} else s.lost)
  {
  }

  lemma DriverLosesNone(s: State, e: string)
    ensures DoSave(s, e).lost == DoClose(s, e).lost == DoHook(s, e).lost == s.lost
    ensures DoReleaseLoad(s, e).lost == DoReleaseClose(s, e).lost == s.lost
    ensures forall reply :: DoExecute(s, e, reply).lost == s.lost
  {
    ClosesLoseNone(s, e);
    hide Decide, SaveIn, DoClose, DoReleaseClose;
  }

  lemma ClosesLoseNone(s: State, e: string)
    ensures DoClose(s, e).lost == DoReleaseClose(s, e).lost == s.lost
  {
    hide CloseIn, Disown, Stamp;
  }

  lemma PassLosesByDying(s: State, r: string)
    ensures DoPassClose(s, r).lost == DoPassHook(s, r).lost == s.lost
    ensures DoPassDie(s, r).lost == (if KillsNotice(s, PassDie(r)) then s.lost + {s.passes[r].pc.x.instanceId} else s.lost)
  {
    hide CloseIn, Disown, CrashCause;
  }

  /** A lost call is never made up for, however the run goes on. */
  lemma {:induction false} LostForGood(acts: seq<Action>, n: nat, i: string)
    requires LegalRun(Initial, acts) && n <= |acts| && i in Run(Initial, acts[..n]).lost
    ensures var s := Run(Initial, acts); i in s.lost && s.hooks[i] == 0 && !HookPending(s, i)
    decreases |acts|
  {
    hide Next, Legal, HookPending;
    if n == |acts| {
      assert acts[..n] == acts;
    } else {
      var before := acts[..|acts| - 1];
      assert before[..n] == acts[..n];
      LostForGood(before, n, i);
      LosesByKilling(Run(Initial, before), acts[|acts| - 1]);
    }
    ReachedIsRun(Run(Initial, acts));
    HookAtMostOnce(Run(Initial, acts), i);
  }

  // ---------------------------------------------------------------- counted without history

  ghost function DueDrivers(s: State, i: string): set<string> {
    set e | e in s.drivers && s.drivers[e].pc.Hooking? && s.drivers[e].inst.id == i
  }

  ghost function DuePasses(s: State, i: string): set<string> {
    set r | r in s.passes && s.passes[r].pc.Announcing? && s.passes[r].pc.x.instanceId == i
  }

  /** Calls made, calls that some driver or pass will make next, and a call lost come to one if final, else to none. */
  ghost predicate NoticesShown(s: State, i: string) {
    s.hooks[i] + |DueDrivers(s, i)| + |DuePasses(s, i)| + Count(i in s.lost)
    == Count(i in s.store.instances && Final(s.store.instances[i].status))
  }

  lemma ReachedShowsNotices(s: State, i: string)
    requires Reached(s)
    ensures NoticesShown(s, i)
  {
    hide Reached, Inv, HookPending, DueDrivers, DuePasses;
    ReachedInv(s);
    DueIsPending(s, i);
    if i in s.store.instances {
      HookRow(s, i);
      if HookPending(s, i) { PendingIsFinal(s, i); }
    } else {
      NoNotices(s, i);
    }
  }

  lemma PendingIsFinal(s: State, i: string)
    requires Inv(s) && i in s.store.instances && HookPending(s, i)
    ensures Final(s.store.instances[i].status)
  {
    hide Inv, RunningOK, HookOK, OnChart;
    RowAndOwner(s, i);
  }

  lemma NoNotices(s: State, i: string)
    requires Inv(s) && i !in s.store.instances
    ensures s.hooks[i] == 0 && i !in s.lost && !HookPending(s, i)
  {
    hide InstancesOK, ExecutionsOK, PassesOK, DeliveriesUnique;
  }

  /** Only the writer of the final status can owe the call. */
  lemma DueIsPending(s: State, i: string)
    requires Inv(s)
    ensures |DueDrivers(s, i)| + |DuePasses(s, i)| == Count(HookPending(s, i))
  {
    hide InstancesOK, DeliveriesUnique, OwnerOK, OnChart, Wakeable, ParkRecord;
    forall e | e in DueDrivers(s, i) ensures i in s.closer && s.closer[i] == ByDriver(e) { DueCloser(s, e); }
    forall r | r in DuePasses(s, i) ensures i in s.closer && s.closer[i] == ByPass(r) { assert PassOK(s, r); }
    if HookPending(s, i) {
      match s.closer[i]
      case ByDriver(e) =>
        PendingDriver(s, i, e);
        assert DueDrivers(s, i) == {e} && DuePasses(s, i) == {};
      case ByPass(r) => assert DueDrivers(s, i) == {} && DuePasses(s, i) == {r};
    } else {
      assert DueDrivers(s, i) == {} && DuePasses(s, i) == {};
    }
  }

  lemma DueCloser(s: State, e: string)
    requires Inv(s) && e in s.drivers && s.drivers[e].pc.Hooking?
    ensures s.drivers[e].inst.id in s.closer && s.closer[s.drivers[e].inst.id] == ByDriver(e)
  {
    hide InstancesOK, PassesOK, DeliveriesUnique, OwnerOK, OnChart, Wakeable, ParkRecord;
    assert ExecutionOK(s, e);
    if s.store.executions[e].outcome.None? { OwnerIsNotHooking(s, s.drivers[e].inst.id); }
  }

  lemma OwnerIsNotHooking(s: State, i: string)
    requires Inv(s) && i in s.owner
    ensures s.owner[i] in s.drivers && !s.drivers[s.owner[i]].pc.Hooking?
  {
    hide ExecutionsOK, PassesOK, DeliveriesUnique, OriginOK, TrackOK, CopyOK, RowOK, HookOK;
    OwnerStands(s, i);
    assert InstanceOK(s, i);
  }

  lemma PendingDriver(s: State, i: string, e: string)
    requires Inv(s) && i in s.closer && s.closer[i] == ByDriver(e)
    ensures e in s.drivers && s.drivers[e].inst.id == i
  {
    hide InstancesOK, PassesOK, DeliveriesUnique, RunningOK, HookOK, OnChart, ClosedOK;
    assert i in s.store.instances;
    RowAndOwner(s, i);
    assert ExecutionOK(s, e);
  }
}
