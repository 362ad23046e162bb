/**
 * Drives are atomic. Seen through its last checkpoint, every instance moves only from park to park, from park to
 * done, or from park to failed, along a walk of its chart; saves, crashes and rollbacks are invisible.
 */
module Refinement {
  import opened Prelude
  import opened Charts
  import opened Stores
  import opened Protocol
  import opened Invariant
  import opened Preservation
  import opened Steps
  import opened Guarantees

  /** The abstract machine of one instance. */
  datatype Abstract =
    | Absent
    | Starting(chart: ChartDef)
    | At(chart: ChartDef, state: string, wakeOn: seq<string>)
    | Completed(chart: ChartDef, state: string)
    | Broken(chart: ChartDef, state: string)

  ghost predicate Park(c: ChartDef, from: string, b: Abstract) {
    b.At? && b.chart == c && Reach(c, from, b.state) && b.wakeOn == SignalsAt(c, b.state)
  }

  ghost predicate Finish(c: ChartDef, from: string, b: Abstract) {
    || (b.Completed? && b.chart == c && Reach(c, from, b.state) && TerminalAt(c, b.state))
    || (b.Broken? && b.chart == c && Reach(c, from, b.state))
  }

  /** One move of the abstract machine: a whole drive, from rest to rest. */
  ghost predicate Move(a: Abstract, b: Abstract) {
    match a
    case Absent => b.Starting? && WellFormed(b.chart)
    case Starting(c) => Park(c, c.initial, b) || Finish(c, c.initial, b)
    case At(c, from, _) => Park(c, from, b) || Finish(c, from, b)
    case Completed(_, _) => false
    case Broken(_, _) => false
  }

  /** What the stored tables show of an instance: a running one stands at its last checkpoint. */
  ghost predicate Shows(st: Store, i: string, a: Abstract) {
    if i !in st.instances then a == Absent
    else
      var r := st.instances[i];
      match r.status
      case Suspended => a == At(r.chartDef, r.current, r.wakeOn)
      case Done => a == Completed(r.chartDef, r.current)
      case Failed => a == Broken(r.chartDef, r.current)
      case Running =>
        if NeverParked(st, i) then a == Starting(r.chartDef)
        else exists at :: LastPark(st, i, at)
                          && a == At(r.chartDef, st.executions[at].suspendedAtState, st.executions[at].suspendedWakeOn)
  }

  /** The same, read off the history of parks. */
  ghost function View(s: State, i: string): Abstract {
    if i !in s.store.instances then Absent
    else
      var r := s.store.instances[i];
      match r.status
      case Suspended => At(r.chartDef, r.current, r.wakeOn)
      case Done => Completed(r.chartDef, r.current)
      case Failed => Broken(r.chartDef, r.current)
      case Running =>
        if i in s.parks && s.parks[i] in s.store.executions
        then At(r.chartDef, s.store.executions[s.parks[i]].suspendedAtState, s.store.executions[s.parks[i]].suspendedWakeOn)
        else Starting(r.chartDef)
  }

  /** In a reachable state the tables show exactly one abstract state. */
  lemma ShowsView(s: State, i: string, a: Abstract)
    requires Inv(s)
    ensures Shows(s.store, i, a) <==> a == View(s, i)
  {
    hide Inv, NeverParked, LastPark;
    if i in s.store.instances && s.store.instances[i].status.Running? {
      if i in s.parks {
        ParkStands(s, i);
        LastParkIsUnique(s, i, s.parks[i]);
      }
      forall at ensures LastPark(s.store, i, at) <==> (i in s.parks && at == s.parks[i])
      ensures NeverParked(s.store, i) <==> i !in s.parks
      {
        LastParkIsUnique(s, i, at);
      }
      LastParkIsUnique(s, i, i);
    }
  }

  /**
   * The steps that can move instance `i`, and where to: a start, a driver's closing write, or a pass's closing write that
   * marks the instance failed. No save, claim, release, rollback or crash is among them.
   */
  ghost predicate MovesTo(s: State, a: Action, i: string, b: Abstract) {
    match a
    case Start(id, chart, _, _) => id == i && b == Starting(chart)
    case CloseStep(e) =>
      e in s.drivers && s.drivers[e].pc.Closing? && s.drivers[e].inst.id == i
      && (match s.drivers[e].pc.outcome
          case OutcomeSuspended => b.At?
          case OutcomeDone => b.Completed?
          case OutcomeFailed => b.Broken?
          case OutcomeCrashed => false)
    case PassClose(r) =>
      r in s.passes && s.passes[r].pc.Writing? && s.passes[r].pc.duty.MarkFailed? && s.passes[r].pc.x.instanceId == i && b.Broken?
    case _ => false
  }

  /** The step stutters on `i`, or is one of those that move it and makes one move. */
  ghost predicate StutterOrMove(s: State, a: Action, i: string) {
    var t := Next(s, a);
    View(t, i) == View(s, i) || (MovesTo(s, a, i, View(t, i)) && Move(View(s, i), View(t, i)))
  }

  /** The state a running instance's view stands at is the one its drive set out from. */
  lemma ViewIsHome(s: State, i: string, d: Driver, r: InstanceRecord)
    requires i in s.store.instances && r == s.store.instances[i] && r.status.Running? && i in s.born
    requires OwnerOK(s, i, d, r) && (i in s.parks ==> s.parks[i] in s.store.executions)
    ensures View(s, i) == (if d.origin.Some? then At(r.chartDef, Home(d, r.chartDef), d.origin.value.wakeOn) else Starting(r.chartDef))
  {
    hide TrackOK, CopyOK, DeciderOK, ClosingOK, AgreeOutside, Wakeable, OnChart;
  }

  lemma SaveStutters(s: State, e: string, i: string)
    requires Inv(s)
    ensures View(DoSave(s, e), i) == View(s, i)
  {
    hide InstancesOK, ExecutionsOK, PassesOK, DeliveriesUnique, OwnerOK, RowOK, RunningOK, HookOK;
    if e in s.drivers && s.drivers[e].pc.Saving? {
      BusyOwns(s, e);
      var j := s.drivers[e].inst.id;
      SaverRuns(s, j, s.drivers[e], s.store.instances[j]);
      if i in s.parks { ParkStands(s, i); }
    }
  }

  /** A driver's close is a single move from where its drive set out, or none if it comes to rest there unchanged. */
  lemma CloseMoves(s: State, e: string, i: string)
    requires Inv(s) && e in s.drivers && s.drivers[e].pc.Closing?
    ensures StutterOrMove(s, CloseStep(e), i)
  {
    hide InstancesOK, ExecutionsOK, PassesOK, DeliveriesUnique, OwnerOK, RowOK, RunningOK, HookOK, Reach, TerminalAt, SignalsAt, Move;
    BusyOwns(s, e);
    var j := s.drivers[e].inst.id;
    if i in s.parks { ParkStands(s, i); ParkIsClosed(s, e, j); }
    if i == j {
      ViewIsHome(s, i, s.drivers[e], s.store.instances[i]);
      ClosingLands(s, i, s.drivers[e], s.store.instances[i]);
    }
  }

  /** Where a closing driver's copy stands, as an abstract state, is one move from its home. */
  lemma ClosingLands(s: State, i: string, d: Driver, r: InstanceRecord)
    requires i in s.born && OwnerOK(s, i, d, r) && d.pc.Closing?
    ensures var a := if d.origin.Some? then At(r.chartDef, Home(d, r.chartDef), d.origin.value.wakeOn) else Starting(r.chartDef);
            d.inst.chartDef == r.chartDef
            && match d.pc.outcome
               case OutcomeSuspended => d.inst.status.Suspended? && Move(a, At(r.chartDef, d.inst.current, d.inst.wakeOn))
               case OutcomeDone => d.inst.status.Done? && Move(a, Completed(r.chartDef, d.inst.current))
               case OutcomeFailed => d.inst.status.Failed? && Move(a, Broken(r.chartDef, d.inst.current))
               case OutcomeCrashed => false
  {
    hide TrackOK, AgreeOutside, Reach, TerminalAt, SignalsAt;
  }

  /** A release parks the instance where it was claimed: no move at all. */
  lemma ReleaseStutters(s: State, e: string, i: string)
    requires Inv(s) && e in s.drivers && s.drivers[e].pc.ReleaseClosing?
    ensures View(DoReleaseClose(s, e), i) == View(s, i)
  {
    hide InstancesOK, ExecutionsOK, PassesOK, DeliveriesUnique, OwnerOK, RowOK, RunningOK, HookOK, Reach, TerminalAt, SignalsAt;
    BusyOwns(s, e);
    ReleaseIsShut(s, e);
    var j := s.drivers[e].inst.id;
    if i in s.parks { ParkStands(s, i); ParkIsClosed(s, e, j); }
    if i == j {
      ViewIsHome(s, i, s.drivers[e], s.store.instances[i]);
      ReleaseLands(s, i, s.drivers[e], s.store.instances[i]);
    }
  }

  lemma ReleaseLands(s: State, i: string, d: Driver, r: InstanceRecord)
    requires i in s.born && OwnerOK(s, i, d, r) && d.pc.ReleaseClosing?
    ensures var row := d.pc.reloaded;
            d.origin.Some? && row.status.Suspended? && row.chartDef == r.chartDef
            && row.current == d.origin.value.current && row.wakeOn == d.origin.value.wakeOn
  {
    hide TrackOK, AgreeOutside, Wakeable, OnChart;
  }

  /** Recovery rolls back to where the view already stands, or fails a drive that never parked. */
  lemma RecoveryMoves(s: State, r: string, i: string)
    requires Inv(s) && r in s.passes && s.passes[r].pc.Writing?
    ensures StutterOrMove(s, PassClose(r), i)
    ensures s.passes[r].pc.duty.RollBack? ==> View(DoPassClose(s, r), i) == View(s, i)
  {
    hide InstancesOK, ExecutionsOK, DeliveriesUnique, OwnerOK, RunningOK, HookOK, Reach, TerminalAt, SignalsAt, RowOK, OnChart, AgreeOutside;
    var pc := s.passes[r].pc;
    assert PassOK(s, r);
    VictimRuns(s, pc.x);
    var j := pc.x.instanceId;
    if i in s.parks { ParkStands(s, i); ParkIsClosed(s, pc.x.id, j); }
    if i == j {
      ViewIsHome(s, i, s.drivers[pc.x.id], s.store.instances[i]);
      StartedReach(s, i, s.drivers[pc.x.id], s.store.instances[i]);
    }
  }

  lemma StartedReach(s: State, i: string, d: Driver, r: InstanceRecord)
    requires i in s.born && OwnerOK(s, i, d, r)
    ensures d.origin.None? <==> i !in s.parks
    ensures Reach(r.chartDef, Home(d, r.chartDef), r.current)
  {
    hide CopyOK, DeciderOK, ClosingOK, AgreeOutside, Wakeable, OnChart, Reach;
  }

  lemma ClaimStutters(s: State, id: string, signal: string, data: Payload, e: string, delivery: Option<string>, i: string)
    requires Inv(s)
    ensures View(DoSignal(s, id, signal, data, e, delivery), i) == View(s, i)
  {
    hide InstancesOK, ExecutionsOK, PassesOK, DeliveriesUnique, RunningOK, HookOK, OnChart, AgreeOutside, Wakeable, DeliverySeen;
    if i in s.parks { ParkStands(s, i); }
    if id in s.store.instances { RowAndOwner(s, id); }
  }

  lemma StartMoves(s: State, id: string, chart: ChartDef, payload: Payload, e: string, i: string)
    requires Inv(s) && WellFormed(chart)
    ensures StutterOrMove(s, Start(id, chart, payload, e), i)
  {
    hide InstancesOK, ExecutionsOK, PassesOK, DeliveriesUnique, DeliverySeen, WellFormed;
    if i in s.parks { ParkStands(s, i); }
  }

  /** Simulation: every legal step of the protocol is, for each instance, a stutter or one move of the abstract machine. */
  lemma StepRefines(s: State, a: Action, i: string)
    requires Inv(s) && Legal(s, a)
    ensures StutterOrMove(s, a, i)
  {
    hide Inv, DoSave, DoClose, DoReleaseClose, DoPassClose, DoSignal, DoStart, DoExecute, DoHook, DoReleaseLoad, DoDie, DoScan, DoPassLoad,
         DoPassSearch, DoPassHook, DoPassDie, Move, View, MovesTo, WellFormed, LeaseMeansDead, NoPassActive;
    match a
    case Start(id, chart, payload, e) => StartMoves(s, id, chart, payload, e, i);
    case Signal(id, signal, data, e, delivery) => ClaimStutters(s, id, signal, data, e, delivery, i);
    case SaveStep(e) => SaveStutters(s, e, i);
    case CloseStep(e) =>
      if e in s.drivers && s.drivers[e].pc.Closing? { CloseMoves(s, e, i); } else { NoClose(s, e); }
    case ReleaseClose(e) =>
      if e in s.drivers && s.drivers[e].pc.ReleaseClosing? { ReleaseStutters(s, e, i); } else { NoClose(s, e); }
    case PassClose(r) =>
      if r in s.passes && s.passes[r].pc.Writing? { RecoveryMoves(s, r, i); } else { NoPassClose(s, r); }
    case _ => QuietStep(s, a, i);
  }

  lemma QuietStep(s: State, a: Action, i: string)
    requires !a.Start? && !a.Signal? && !a.SaveStep? && !a.CloseStep? && !a.ReleaseClose? && !a.PassClose?
    ensures View(Next(s, a), i) == View(s, i)
  {
    hide Next;
    QuietActions(s, a);
  }

  lemma NoPassClose(s: State, r: string)
    requires r !in s.passes || !s.passes[r].pc.Writing?
    ensures DoPassClose(s, r) == s
  {
  }

  /** The tables show an abstract run: at every point of every legal run, the next step stutters or moves once. */
  lemma RunRefines(acts: seq<Action>, k: nat, i: string, a: Abstract, b: Abstract)
    requires LegalRun(Initial, acts) && k < |acts|
    requires Shows(Run(Initial, acts[..k]).store, i, a) && Shows(Run(Initial, acts[..k + 1]).store, i, b)
    ensures a == b || (MovesTo(Run(Initial, acts[..k]), acts[k], i, b) && Move(a, b))
  {
    hide Inv, Next, Legal, Shows, Move, View, MovesTo;
    var s := Run(Initial, acts[..k]);
    PrefixRuns(acts, k + 1);
    PrefixRuns(acts, k);
    assert acts[..k + 1][..k] == acts[..k];
    RunKeeps(acts[..k]);
    RunKeeps(acts[..k + 1]);
    StepRefines(s, acts[k], i);
    ShowsView(s, i, a);
    ShowsView(Next(s, acts[k]), i, b);
  }
}
