/** Each action of the protocol, when legal, keeps the invariant; hence every legal run does. */
module Steps {
  import opened Prelude
  import opened Charts
  import opened Stores
  import opened Protocol
  import opened Invariant
  import opened Preservation

  // ---------------------------------------------------------------- the engine loop

  /** Changing a payload at one visited key keeps it equal to the base everywhere else. */
  lemma FileInside(p: Payload, base: Payload, ks: set<string>, key: string, data: Payload)
    requires AgreeOutside(p, base, ks) && key in ks
    ensures AgreeOutside(File(p, key, data), base, ks)
  {
  }

  /** A transition taken by a driver stays on the walk. */
  lemma MoveOnWalk(s: State, i: string, d: Driver, r: InstanceRecord, st: StateConfig, event: string)
    requires i in s.born && OnChart(r) && CopyOK(s, i, d, r) && TrackOK(s, i, d, r)
    requires Lookup(r.chartDef, d.inst.current) == Some(st) && Resolve(st.transitions, event).Some?
    ensures var next := Resolve(st.transitions, event).value;
            next in Names(r.chartDef.states) && Reach(r.chartDef, Home(d, r.chartDef), next)
  {
    hide Reach, AgreeOutside, Names;
    ResolvedIsEdge(r.chartDef, d.inst.current, event);
    ReachEdge(r.chartDef, Home(d, r.chartDef), d.inst.current, Resolve(st.transitions, event).value);
  }

  /** A wider set of visited states keeps a drive on track. */
  lemma WiderTrack(s: State, i: string, d: Driver, d': Driver, r: InstanceRecord)
    requires i in s.born && TrackOK(s, i, d, r)
    requires d'.origin == d.origin && d.visited <= d'.visited <= Names(r.chartDef.states)
    ensures TrackOK(s, i, d', r)
  {
  }

  /** One loop iteration leaves the owner where the invariant wants it, whatever the executor answers. */
  lemma DecideOK(s: State, i: string, d: Driver, r: InstanceRecord, reply: Reply)
    requires i in s.born && OnChart(r) && OwnerOK(s, i, d, r) && d.pc.Deciding?
    ensures OwnerOK(s, i, Decide(d, reply), r)
  {
    hide Reach, AgreeOutside, Names, StateOK, DistinctNames, WellFormed, OwnerOK, Wakeable, Resolve;
    StandsAtDefined(s, i, d, r);
    LookupOK(r.chartDef, d.inst.current);
    var st := Lookup(r.chartDef, d.inst.current).value;
    var d' := Decide(d, reply);
    if !st.terminal && reply.Returns? { FileInside(d.inst.payload, Base(s, i, d), d.visited, st.name, reply.result.output); }
    if d'.pc.Saving? {
      MoveOK(s, i, d, r, st, reply.result);
    } else if d'.pc.Releasing? {
      ReleaseOK(s, i, d, r);
    } else {
      assert d'.inst.status.Suspended? ==> Wakeable(d'.inst) by { ParkedWakeable(d'.inst); }
      StopOK(s, i, d, d', r);
    }
  }

  lemma StandsAtDefined(s: State, i: string, d: Driver, r: InstanceRecord)
    requires i in s.born && OnChart(r) && OwnerOK(s, i, d, r) && d.pc.Deciding?
    ensures d.inst.chartDef == r.chartDef && d.inst.current in Names(r.chartDef.states) && d.inst.status.Running?
    ensures AgreeOutside(d.inst.payload, Base(s, i, d), d.visited) && d.inst.current in d.visited
  {
    hide Reach, AgreeOutside, Names, WellFormed, OriginOK, JustClaimed;
  }

  lemma ParkedWakeable(inst: InstanceRecord)
    ensures inst.wakeOn == SignalsAt(inst.chartDef, inst.current) && (inst.wakeOn != [] || inst.wakeAt.Some?) <==> Wakeable(inst)
  {
  }

  /** A rejected first step leaves the claimed row untouched. */
  lemma ReleaseOK(s: State, i: string, d: Driver, r: InstanceRecord)
    requires i in s.born && OwnerOK(s, i, d, r) && d.pc.Deciding? && d.first && d.resume.Some?
    ensures OwnerOK(s, i, d.(pc := Releasing), r)
  {
    hide Reach, AgreeOutside, Names, WellFormed, Wakeable, OnChart;
  }

  /** The owner has prepared its closing write where it stands. */
  lemma StopOK(s: State, i: string, d: Driver, d': Driver, r: InstanceRecord)
    requires i in s.born && OwnerOK(s, i, d, r) && d.pc.Deciding?
    requires d'.pc.Closing? && d' == d.(inst := d'.inst, pc := d'.pc)
    requires d'.inst == d.inst.(payload := d'.inst.payload, status := d'.inst.status, wakeOn := d'.inst.wakeOn, wakeAt := d'.inst.wakeAt)
    requires AgreeOutside(d'.inst.payload, Base(s, i, d), d.visited)
    requires ClosingOK(d'.inst, d'.pc.outcome, d'.pc.cause) && LateIfInvalid(d', d'.pc.cause)
    ensures OwnerOK(s, i, d', r)
  {
    hide Reach, AgreeOutside, Names, TrackOK, OriginOK, JustClaimed, ClosingOK, LateIfInvalid;
    Tracked(s, i, d, r);
    WiderTrack(s, i, d, d', r);
    SameOrigin(s, i, d, d', r);
  }

  /** The owner has moved along a transition. */
  lemma MoveOK(s: State, i: string, d: Driver, r: InstanceRecord, st: StateConfig, res: Result)
    requires i in s.born && OnChart(r) && OwnerOK(s, i, d, r) && d.pc.Deciding?
    requires Lookup(r.chartDef, d.inst.current) == Some(st) && st.name == d.inst.current && !st.terminal && !res.suspend
    requires Resolve(st.transitions, res.event).Some?
    ensures OwnerOK(s, i, Decide(d, Returns(res)), r)
  {
    hide Reach, AgreeOutside, Names, StateOK, DistinctNames, WellFormed, Lookup, Resolve, TrackOK, File;
    var base := Base(s, i, d);
    FileInside(d.inst.payload, base, d.visited, st.name, res.output);
    MoveOnWalk(s, i, d, r, st, res.event);
    Tracked(s, i, d, r);
    var next := Resolve(st.transitions, res.event).value;
    WiderFrame(File(d.inst.payload, st.name, res.output), base, d.visited, d.visited + {next});
    WiderTrack(s, i, d, Decide(d, Returns(res)), r);
  }

  lemma SameOrigin(s: State, i: string, d: Driver, d': Driver, r: InstanceRecord)
    requires i in s.born && OriginOK(s, i, d, r) && d'.origin == d.origin && d'.resume == d.resume
    ensures OriginOK(s, i, d', r)
  {
  }

  lemma Tracked(s: State, i: string, d: Driver, r: InstanceRecord)
    requires i in s.born && TrackOK(s, i, d, r)
    ensures d.visited <= Names(r.chartDef.states)
  {
  }

  lemma WiderFrame(p: Payload, base: Payload, ks: set<string>, ls: set<string>)
    requires AgreeOutside(p, base, ks) && ks <= ls
    ensures AgreeOutside(p, base, ls)
  {
  }

  lemma ExecuteKeeps(s: State, e: string, reply: Reply)
    requires Inv(s)
    ensures Inv(DoExecute(s, e, reply))
  {
    hide InstancesOK, ExecutionsOK, PassesOK, DeliveriesUnique, OwnerOK, Decide;
    if e in s.drivers && s.drivers[e].pc.Deciding? {
      BusyOwns(s, e);
      var i := s.store.executions[e].instanceId;
      DecideOK(s, i, s.drivers[e], s.store.instances[i], reply);
      DecideKeepsIdentity(s.drivers[e], reply);
      OwnerStep(s, e, Decide(s.drivers[e], reply));
    }
  }

  lemma DecideKeepsIdentity(d: Driver, reply: Reply)
    ensures var d' := Decide(d, reply);
            d'.resume == d.resume && d'.inst.id == d.inst.id && d'.origin == d.origin && d'.first == d.first
            && d'.inst.version == d.inst.version && d'.inst.chartDef == d.inst.chartDef && d.visited <= d'.visited
  {
    hide Lookup, Resolve, File;
  }

  lemma SaveKeeps(s: State, e: string)
    requires Inv(s)
    ensures Inv(DoSave(s, e))
  {
    hide Inv;
    if e in s.drivers && s.drivers[e].pc.Saving? { SavingStep(s, e); }
  }

  // ---------------------------------------------------------------- closing

  lemma CloseKeeps(s: State, e: string)
    requires Inv(s)
    ensures Inv(DoClose(s, e))
  {
    hide Inv, ShutMove, Stamp, CloseRow;
    if e in s.drivers && s.drivers[e].pc.Closing? {
      var d := s.drivers[e];
      var outcome := d.pc.outcome;
      var pc := if outcome.OutcomeSuspended? then Finished else Hooking(d.pc.cause);
      var d' := d.(inst := Stamp(d.inst, s.clock + 1), pc := pc);
      var closer := if outcome.OutcomeSuspended? then s.closer else s.closer[d.inst.id := ByDriver(e)];
      CloseIsShut(s, e);
      LiveShutPasses(s, e, d.inst, outcome, d.pc.cause, d', closer);
      ShutStep(s, e, d.inst, outcome, d.pc.cause, d', closer, s.passes);
    }
  }

  lemma CloseIsShut(s: State, e: string)
    requires Inv(s) && e in s.drivers && s.drivers[e].pc.Closing?
    ensures var d := s.drivers[e];
            var outcome := d.pc.outcome;
            var pc := if outcome.OutcomeSuspended? then Finished else Hooking(d.pc.cause);
            var d' := d.(inst := Stamp(d.inst, s.clock + 1), pc := pc);
            var closer := if outcome.OutcomeSuspended? then s.closer else s.closer[d.inst.id := ByDriver(e)];
            ShutMove(s, e, d.inst, outcome, d.pc.cause, d', closer, s.passes)
  {
    hide InstancesOK, ExecutionsOK, PassesOK, DeliveriesUnique, HookOK, AgreeOutside, Wakeable, Reach, OriginOK, TrackOK;
    BusyOwns(s, e);
    var i := s.store.executions[e].instanceId;
    WalkOnChart(s, i, s.drivers[e], s.store.instances[i]);
  }

  lemma LiveShutPasses(s: State, e: string, i: InstanceRecord, outcome: Outcome, cause: Option<Cause>, d: Driver, closer: map<string, Closer>)
    requires ShutMove(s, e, i, outcome, cause, d, closer, s.passes) && !s.drivers[e].pc.Crashed?
    ensures PassesOK(Shut(s, e, i, outcome, cause, d, closer, s.passes))
  {
    hide PassOK, InstancesOK, ExecutionsOK, DeliveriesUnique, RestOK, NoticeOK, SameNotices, OnChart, AgreeOutside;
    var t := Shut(s, e, i, outcome, cause, d, closer, s.passes);
    forall r | r in t.passes ensures PassOK(t, r) { ShutPasses(s, e, i, outcome, cause, d, closer, r); }
  }

  lemma ReleaseIsShut(s: State, e: string)
    requires Inv(s) && e in s.drivers && s.drivers[e].pc.ReleaseClosing?
    ensures var d := s.drivers[e];
            ShutMove(s, e, d.pc.reloaded, OutcomeSuspended, None, d.(pc := Finished), s.closer, s.passes)
    ensures s.drivers[e].pc.reloaded.id == s.store.executions[e].instanceId
  {
    hide InstancesOK, ExecutionsOK, PassesOK, DeliveriesUnique, HookOK, AgreeOutside, Reach, TrackOK;
    BusyOwns(s, e);
  }

  lemma ReleaseCloseKeeps(s: State, e: string)
    requires Inv(s)
    ensures Inv(DoReleaseClose(s, e))
  {
    hide InstancesOK, ExecutionsOK, PassesOK, DeliveriesUnique, ShutMove;
    if e in s.drivers && s.drivers[e].pc.ReleaseClosing? {
      var d := s.drivers[e];
      ReleaseIsShut(s, e);
      LiveShutPasses(s, e, d.pc.reloaded, OutcomeSuspended, None, d.(pc := Finished), s.closer);
      ShutStep(s, e, d.pc.reloaded, OutcomeSuspended, None, d.(pc := Finished), s.closer, s.passes);
    }
  }

  // ---------------------------------------------------------------- after the close, and dying

  lemma HookKeeps(s: State, e: string)
    requires Inv(s)
    ensures Inv(DoHook(s, e))
  {
    hide InstanceOK, PassesOK, DeliveriesUnique, OwnerOK;
    if e in s.drivers && s.drivers[e].pc.Hooking? {
      var d := s.drivers[e];
      assert ExecutionOK(s, e);
      NotBusy(s, e);
      RetiredStep(s, e, d.(pc := if d.resume.Some? && InvalidInput(d.pc.cause) then Releasing else Finished),
                  s.hooks + multiset{d.inst.id}, s.lost);
    }
  }

  /** A driver delivering its notice has closed its execution. */
  lemma NotBusy(s: State, e: string)
    requires Inv(s) && e in s.drivers && (s.drivers[e].pc.Hooking? || s.drivers[e].pc.Finished?)
    ensures s.store.executions[e].outcome.Some?
  {
    hide PassesOK, DeliveriesUnique, ClosedOK, RowOK, HookOK;
    assert ExecutionOK(s, e);
    assert InstanceOK(s, s.store.executions[e].instanceId);
  }

  lemma ReleaseLoadKeeps(s: State, e: string)
    requires Inv(s)
    ensures Inv(DoReleaseLoad(s, e))
  {
    hide PassesOK, DeliveriesUnique, TrackOK, OriginOK, JustClaimed, OnChart, HookOK, Wakeable;
    if e in s.drivers && s.drivers[e].pc.Releasing? {
      var d := s.drivers[e];
      assert ExecutionOK(s, e);
      var i := s.store.executions[e].instanceId;
      assert InstanceOK(s, i);
      if s.store.executions[e].outcome.None? {
        var d' := d.(pc := ReleaseClosing(s.store.instances[i].(status := Suspended)));
        assert OwnerOK(s, i, d', s.store.instances[i]) by { ReleaseOwner(s, i, d, d', s.store.instances[i]); }
        OwnerStep(s, e, d');
      } else {
        RetiredStep(s, e, d.(pc := Finished), s.hooks, s.lost);
      }
    }
  }

  lemma ReleaseOwner(s: State, i: string, d: Driver, d': Driver, r: InstanceRecord)
    requires i in s.born && OwnerOK(s, i, d, r) && d.pc.Releasing? && d' == d.(pc := ReleaseClosing(r.(status := Suspended)))
    ensures OwnerOK(s, i, d', r)
  {
  }

  lemma DieKeeps(s: State, e: string)
    requires Inv(s)
    ensures Inv(DoDie(s, e))
  {
    hide InstanceOK, PassesOK, DeliveriesUnique, TrackOK, OriginOK, CopyOK;
    if e in s.drivers && !s.drivers[e].pc.Finished? {
      var d := s.drivers[e];
      var d' := d.(pc := Crashed);
      assert ExecutionOK(s, e);
      var i := s.store.executions[e].instanceId;
      if d.pc.Crashed? {
        assert s.drivers[e := d'] == s.drivers;
        assert DoDie(s, e) == s;
      } else if s.store.executions[e].outcome.None? {
        OpenOwner(s, e);
        DyingOwner(s, i, d, s.store.instances[i]);
        OwnerStep(s, e, d');
      } else {
        RetiredStep(s, e, d', s.hooks, if d.pc.Hooking? then s.lost + {d.inst.id} else s.lost);
      }
    }
  }

  lemma DyingOwner(s: State, i: string, d: Driver, r: InstanceRecord)
    requires i in s.born && OwnerOK(s, i, d, r)
    ensures OwnerOK(s, i, d.(pc := Crashed), r) && !d.pc.Hooking?
  {
  }

  /** The driver of an open execution owns its instance. */
  lemma OpenOwner(s: State, e: string)
    requires Inv(s) && e in s.drivers && s.store.executions[e].outcome.None?
    ensures var i := s.store.executions[e].instanceId;
            Owns(s, e, i) && i in s.born && i in s.store.instances && OwnerOK(s, i, s.drivers[e], s.store.instances[i])
  {
    hide PassesOK, DeliveriesUnique, ClosedOK, RowOK, HookOK, OwnerOK;
    assert ExecutionOK(s, e);
    assert InstanceOK(s, s.store.executions[e].instanceId);
    HasBirth(s, s.store.executions[e].instanceId);
  }

  // ---------------------------------------------------------------- starting and waking

  lemma StartKeeps(s: State, id: string, chart: ChartDef, payload: Payload, e: string)
    requires Inv(s) && WellFormed(chart)
    ensures Inv(DoStart(s, id, chart, payload, e))
  {
    hide InstancesOK, ExecutionsOK, PassesOK, DeliveriesUnique, OwnerOK, DeliverySeen, WellFormed;
    match StartIn(s.store, FreshRow(id, chart, payload), NewExecution(e, id, OnStart, None), s.clock + 1)
    case Refused(_) =>
    case Admitted(st, row) =>
      var d := Driver(row, None, true, Deciding, None, {chart.initial});
      var born := s.born[id := payload];
      StarterOwns(s.(born := born), row, d);
      assert !DeliverySeen(s.store.executions, None) by { NoDelivery(s.store.executions); }
      AdmitStep(s, e, row, OnStart, None, d, born);
  }

  lemma NoDelivery(executions: map<string, Execution>)
    ensures !DeliverySeen(executions, None)
  {
  }

  lemma StarterOwns(s: State, row: InstanceRecord, d: Driver)
    requires WellFormed(row.chartDef) && row.current == row.chartDef.initial && row.id in s.born && row.payload == s.born[row.id]
    requires row.chartId == row.chartDef.id && row.chartVersion == row.chartDef.version
    requires row.status.Running? && row.id !in s.parks
    requires d == Driver(row, None, true, Deciding, None, {row.chartDef.initial})
    ensures OnChart(row) && OwnerOK(s, row.id, d, row)
  {
    hide WalkFrom, StateOK, DistinctNames;
    ReachSelf(row.chartDef, row.chartDef.initial);
  }

  lemma SignalKeeps(s: State, id: string, signal: string, data: Payload, e: string, delivery: Option<string>)
    requires Inv(s)
    ensures Inv(DoSignal(s, id, signal, data, e, delivery))
  {
    hide Inv, DeliverySeen, AdmitMove, Admit, DoSignal;
    match ClaimIn(s.store, id, signal, NewExecution(e, id, OnSignal(signal), delivery), s.clock + 1)
    case Refused(_) => assert DoSignal(s, id, signal, data, e, delivery) == s by { RefusedSignal(s, id, signal, data, e, delivery); }
    case Admitted(st, row) =>
      var d := Driver(Woken(row, data), Some(Resume(signal, data)), true, Deciding, Some(s.store.instances[id]), {row.current});
      SignalAdmits(s, id, signal, data, e, delivery, row, d);
      SignalIsAdmit(s, id, signal, data, e, delivery, row, d);
      AdmitStep(s, e, row, OnSignal(signal), delivery, d, s.born);
  }

  lemma RefusedSignal(s: State, id: string, signal: string, data: Payload, e: string, delivery: Option<string>)
    requires ClaimIn(s.store, id, signal, NewExecution(e, id, OnSignal(signal), delivery), s.clock + 1).Refused?
    ensures DoSignal(s, id, signal, data, e, delivery) == s
  {
  }

  lemma SignalIsAdmit(s: State, id: string, signal: string, data: Payload, e: string, delivery: Option<string>, row: InstanceRecord, d: Driver)
    requires var claim := ClaimIn(s.store, id, signal, NewExecution(e, id, OnSignal(signal), delivery), s.clock + 1);
             claim.Admitted? && claim.row == row && row.id == id
    requires d == Driver(Woken(row, data), Some(Resume(signal, data)), true, Deciding, Some(s.store.instances[id]), {row.current})
    ensures DoSignal(s, id, signal, data, e, delivery) == Admit(s, e, row, OnSignal(signal), delivery, d, s.born)
  {
    hide Woken, DeliverySeen;
  }

  lemma SignalAdmits(s: State, id: string, signal: string, data: Payload, e: string, delivery: Option<string>, row: InstanceRecord, d: Driver)
    requires Inv(s)
    requires var claim := ClaimIn(s.store, id, signal, NewExecution(e, id, OnSignal(signal), delivery), s.clock + 1);
             claim.Admitted? && claim.row == row
    requires d == Driver(Woken(row, data), Some(Resume(signal, data)), true, Deciding, Some(s.store.instances[id]), {row.current})
    ensures row.id == id && AdmitMove(s, e, row, OnSignal(signal), delivery, d, s.born)
  {
    hide Inv, OwnerOK, DeliverySeen, OnChart, AgreeOutside, Wakeable, ParkedAt;
    ParkedRow(s, id);
    WakerOwns(s, s.store.instances[id], row, d, signal, data);
    assert s.(born := s.born) == s;
  }

  /** What the invariant says of a row that can be claimed. */
  lemma ParkedRow(s: State, i: string)
    requires Inv(s) && i in s.store.instances && s.store.instances[i].status.Suspended?
    ensures var o := s.store.instances[i];
            && o.id == i && i in s.born && i !in s.owner && i !in s.closer
            && 1 <= o.createdAt <= s.clock && 1 <= o.version
            && OnChart(o) && Wakeable(o) && ParkedAt(s, i, o.current, o.wakeOn)
            && AgreeOutside(o.payload, s.born[i], Names(o.chartDef.states))
  {
    hide Inv, OnChart, AgreeOutside, Wakeable, ParkedAt, HookOK, RunningOK;
    RowAndOwner(s, i);
  }

  lemma WakerOwns(s: State, o: InstanceRecord, row: InstanceRecord, d: Driver, signal: string, data: Payload)
    requires o.id in s.born && OnChart(o) && o.status.Suspended? && Wakeable(o) && signal in o.wakeOn && ParkedAt(s, o.id, o.current, o.wakeOn)
    requires AgreeOutside(o.payload, s.born[o.id], Names(o.chartDef.states))
    requires JustClaimed(o, row)
    requires d == Driver(Woken(row, data), Some(Resume(signal, data)), true, Deciding, Some(o), {row.current})
    ensures OnChart(row) && OwnerOK(s, o.id, d, row)
    ensures AgreeOutside(row.payload, s.born[o.id], Names(row.chartDef.states))
  {
    hide WalkFrom, StateOK, DistinctNames, WellFormed, Lookup;
    ReachSelf(row.chartDef, row.current);
    FileInside(row.payload, o.payload, d.visited, row.current, data);
  }

  // ---------------------------------------------------------------- recovery

  lemma ScanKeeps(s: State, r: string, before: nat, order: seq<string>)
    requires Inv(s) && LeaseMeansDead(s, before) && NoPassActive(s)
    ensures Inv(DoScan(s, r, before, order))
  {
    hide InstancesOK, DeliveriesUnique, PassOK, ClosedOK;
    if (r in s.passes ==> !Active(s.passes[r])) && Enumerates(order, Expired(s.store, before)) {
      var t := DoScan(s, r, before, order);
      ScannedPass(s, r, before, order);
      SameJudgement(s, t);
      forall q | q in t.passes ensures PassOK(t, q) {
        if q != r { IdlePass(s, t, q); }
      }
      QuietPass(s, t.passes);
    }
  }

  /** A pass that is not under way asks nothing of the state. */
  lemma IdlePass(s: State, t: State, q: string)
    requires q in t.passes && !Active(t.passes[q])
    ensures PassOK(t, q)
  {
  }

  lemma ScannedPass(s: State, r: string, before: nat, order: seq<string>)
    requires Inv(s) && LeaseMeansDead(s, before) && Enumerates(order, Expired(s.store, before))
    requires r in s.passes ==> !Active(s.passes[r])
    ensures PassOK(DoScan(s, r, before, order), r)
  {
    hide InstancesOK, DeliveriesUnique, PassesOK, ClosedOK;
    var t := DoScan(s, r, before, order);
    var queue := t.passes[r].queue;
    forall k | 0 <= k < |queue| ensures Victim(t, queue[k]) && queue[k].id == order[k] {
      assert order[k] in Expired(s.store, before);
      assert ExecutionOK(s, order[k]);
    }
  }

  /** What a victim's row looks like: running, owned by the victim. */
  lemma VictimRuns(s: State, x: Execution)
    requires Inv(s) && Victim(s, x)
    ensures x.instanceId in s.store.instances && Owns(s, x.id, x.instanceId) && s.store.instances[x.instanceId].status.Running?
    ensures x.instanceId in s.born && OwnerOK(s, x.instanceId, s.drivers[x.id], s.store.instances[x.instanceId])
    ensures RowOK(s, x.instanceId) && s.store.instances[x.instanceId].id == x.instanceId
  {
    hide PassesOK, DeliveriesUnique, ClosedOK, HookOK, OwnerOK, OnChart, AgreeOutside;
    assert ExecutionOK(s, x.id);
    assert InstanceOK(s, x.instanceId);
    HasBirth(s, x.instanceId);
  }

  /** Replacing one pass by another that is in order, with the rest idle. */
  lemma PassMoves(s: State, r: string, p: Pass)
    requires Inv(s) && r in s.passes && Active(s.passes[r]) && !s.passes[r].pc.Announcing? && !p.pc.Announcing?
    requires PassOK(s.(passes := s.passes[r := p]), r)
    ensures Inv(s.(passes := s.passes[r := p]))
  {
    hide InstancesOK, ExecutionsOK, DeliveriesUnique, PassOK;
    var t := s.(passes := s.passes[r := p]);
    forall q | q in t.passes ensures PassOK(t, q) {
      if q != r { IdlePass(s, t, q); }
    }
    QuietPass(s, t.passes);
  }

  lemma PassLoadKeeps(s: State, r: string)
    requires Inv(s)
    ensures Inv(DoPassLoad(s, r))
  {
    hide InstancesOK, ExecutionsOK, DeliveriesUnique, OwnerOK, RowOK;
    if r in s.passes && s.passes[r].pc.Fetching? && s.passes[r].queue != [] {
      var p := s.passes[r];
      var x := p.queue[0];
      assert PassOK(s, r);
      assert Victim(s, x);
      VictimRuns(s, x);
      var t := DoPassLoad(s, r);
      SameJudgement(s, t);
      PassMoves(s, r, t.passes[r]);
    }
  }

  /** In every reachable state the last checkpoint is unique: it is the execution the instance last parked at. */
  lemma LastParkIsUnique(s: State, i: string, at: string)
    requires Inv(s)
    ensures LastPark(s.store, i, at) <==> (i in s.parks && at == s.parks[i])
    ensures NeverParked(s.store, i) <==> i !in s.parks
  {
    hide InstancesOK, PassesOK, DeliveriesUnique, RetiredOK;
    forall e | e in s.store.executions && Parked(s.store, i, e)
      ensures i in s.parks && (e == s.parks[i] || (s.parks[i] in s.store.executions
                               && s.store.executions[e].startedAt < s.store.executions[s.parks[i]].startedAt))
    {
      assert ExecutionOK(s, e);
    }
    if i in s.parks { ParkStands(s, i); }
  }

  lemma PassSearchKeeps(s: State, r: string, at: string)
    requires Inv(s)
    ensures Inv(DoPassSearch(s, r, at))
  {
    hide InstancesOK, ExecutionsOK, DeliveriesUnique, OwnerOK, NeverParked, LastPark;
    if r in s.passes && s.passes[r].pc.Searching? {
      var p := s.passes[r];
      var x := p.pc.x;
      assert PassOK(s, r);
      VictimRuns(s, x);
      LastParkIsUnique(s, x.instanceId, at);
      var t := DoPassSearch(s, r, at);
      if t != s {
        SameJudgement(s, t);
        PassMoves(s, r, t.passes[r]);
      }
    }
  }

  /** The checkpoint a crashed, claimed drive set out from is wakeable, and it is where the instance last parked. */
  lemma RollbackRests(s: State, i: string, d: Driver, r: InstanceRecord, back: InstanceRecord)
    requires i == r.id && i in s.born && OwnerOK(s, i, d, r) && WriteOK(s, back, r, RollBack)
    ensures d.origin.Some? && back.current == d.origin.value.current && back.wakeOn == d.origin.value.wakeOn
    ensures d.resume.Some? && d.resume.value.signal in back.wakeOn
    ensures Wakeable(back) && OnChart(back)
  {
    hide TrackOK, CopyOK, DeciderOK, ClosingOK, AgreeOutside, WellFormed, Reach, Names, Lookup;
  }

  lemma PassCloseShuts(s: State, r: string)
    requires Inv(s) && r in s.passes && s.passes[r].pc.Writing?
    ensures var pc := s.passes[r].pc;
            var t := DoPassClose(s, r);
            pc.x.id in s.drivers && pc.inst.id == pc.x.instanceId
            && ShutMove(s, pc.x.id, pc.inst, OutcomeCrashed, Some(CrashCause(pc.duty)), s.drivers[pc.x.id], t.closer, t.passes)
            && t == Shut(s, pc.x.id, pc.inst, OutcomeCrashed, Some(CrashCause(pc.duty)), s.drivers[pc.x.id], t.closer, t.passes)
  {
    hide InstancesOK, ExecutionsOK, DeliveriesUnique, OwnerOK, AgreeOutside, OnChart, Wakeable;
    var p := s.passes[r];
    var x := p.pc.x;
    var t := DoPassClose(s, r);
    assert PassOK(s, r);
    VictimRuns(s, x);
    RowAndNotice(s, x.instanceId);
    var row := s.store.instances[x.instanceId];
    assert s.drivers[x.id := s.drivers[x.id]] == s.drivers;
    if p.pc.duty.RollBack? {
      RollbackRests(s, x.instanceId, s.drivers[x.id], row, p.pc.inst);
    } else {
      FailedStands(row);
    }
    assert SameNotices(s, x.instanceId, t.passes);
  }

  lemma FailedStands(r: InstanceRecord)
    requires OnChart(r)
    ensures OnChart(r.(status := Failed))
  {
  }

  lemma PassCloseKeeps(s: State, r: string)
    requires Inv(s)
    ensures Inv(DoPassClose(s, r))
  {
    hide InstancesOK, ExecutionsOK, DeliveriesUnique, PassOK, ShutMove, Shut;
    if r in s.passes && s.passes[r].pc.Writing? {
      var pc := s.passes[r].pc;
      var t := DoPassClose(s, r);
      PassCloseShuts(s, r);
      forall q | q in t.passes ensures PassOK(t, q) {
        if q == r { ClosingPass(s, r); } else { IdlePass(s, t, q); }
      }
      ShutStep(s, pc.x.id, pc.inst, OutcomeCrashed, Some(CrashCause(pc.duty)), s.drivers[pc.x.id], t.closer, t.passes);
    }
  }

  /** Closing one victim leaves the rest of the queue victims. */
  lemma ClosingPass(s: State, r: string)
    requires Inv(s) && r in s.passes && s.passes[r].pc.Writing?
    ensures PassOK(DoPassClose(s, r), r)
  {
    hide InstancesOK, ExecutionsOK, DeliveriesUnique, OwnerOK, RowOK;
    var p := s.passes[r];
    var t := DoPassClose(s, r);
    assert PassOK(s, r);
    VictimRuns(s, p.pc.x);
    forall k | 0 <= k < |p.queue| ensures Victim(t, p.queue[k]) {
      assert Victim(s, p.queue[k]);
    }
  }

  lemma PassHookKeeps(s: State, r: string)
    requires Inv(s)
    ensures Inv(DoPassHook(s, r))
  {
    hide InstancesOK, ExecutionsOK, DeliveriesUnique;
    if r in s.passes && s.passes[r].pc.Announcing? {
      var p := s.passes[r];
      var passes := s.passes[r := p.(pc := Fetching, recovered := p.recovered + 1)];
      assert PassOK(s, r);
      SameJudgement(s, s.(passes := passes));
      forall q | q in passes ensures PassOK(s.(passes := passes), q) {
        if q != r { IdlePass(s, s.(passes := passes), q); }
      }
      ToldStep(s, r, passes, s.hooks + multiset{p.pc.x.instanceId}, s.lost);
    }
  }

  lemma PassDieKeeps(s: State, r: string)
    requires Inv(s)
    ensures Inv(DoPassDie(s, r))
  {
    hide InstancesOK, ExecutionsOK, DeliveriesUnique;
    if r in s.passes {
      var passes := s.passes - {r};
      SameJudgement(s, s.(passes := passes));
      forall q | q in passes ensures PassOK(s.(passes := passes), q) { assert PassOK(s, q); }
      if s.passes[r].pc.Announcing? {
        ToldStep(s, r, passes, s.hooks, s.lost + {s.passes[r].pc.x.instanceId});
      } else {
        QuietPass(s, passes);
      }
    }
  }

  lemma TickKeeps(s: State, d: nat)
    requires Inv(s)
    ensures Inv(s.(clock := s.clock + d))
  {
    hide InstanceOK, ExecutionOK, PassOK, DeliveriesUnique;
    var t := s.(clock := s.clock + d);
    forall j | j in t.store.instances ensures InstanceOK(t, j) { TickInstance(s, t, j); }
    forall f | f in t.store.executions ensures ExecutionOK(t, f) { TickExecution(s, t, f); }
    forall r | r in t.passes ensures PassOK(t, r) { assert PassOK(s, r); ClockFree(s, t, r); }
  }

  lemma TickInstance(s: State, t: State, j: string)
    requires Inv(s) && j in s.store.instances && t == s.(clock := t.clock) && s.clock <= t.clock
    ensures InstanceOK(t, j)
  {
    hide OwnerOK, RowOK, HookOK, ExecutionsOK, PassesOK, DeliveriesUnique;
    RowAndOwner(s, j);
    if j in s.owner { OwnerStands(s, j); }
    HasBirth(s, j);
    CloserStands(s, j);
    InstanceFrame(s, t, j);
  }

  lemma TickExecution(s: State, t: State, f: string)
    requires Inv(s) && f in s.store.executions && t == s.(clock := t.clock) && s.clock <= t.clock
    ensures ExecutionOK(t, f)
  {
    hide InstancesOK, PassesOK, DeliveriesUnique, ClosedOK;
    assert ExecutionOK(s, f);
    if s.store.executions[f].outcome.Some? { ClosedUntimed(s, t, f); }
  }

  lemma ClosedUntimed(s: State, t: State, f: string)
    requires f in s.drivers && f in s.store.executions && s.store.executions[f].instanceId in s.store.instances
    requires s.store.executions[f].outcome.Some? && t == s.(clock := t.clock)
    ensures ClosedOK(s, f, s.store.executions[f]) == ClosedOK(t, f, t.store.executions[f])
  {
  }

  lemma ClockFree(s: State, t: State, r: string)
    requires r in s.passes && PassOK(s, r) && t == s.(clock := t.clock)
    ensures PassOK(t, r)
  {
  }

  // ---------------------------------------------------------------- every legal run

  lemma InitialOK()
    ensures Inv(Initial)
  {
  }

  /** Safety, one step: every legal action keeps the invariant, whatever the executors, callers and crashes do. */
  lemma NextKeeps(s: State, a: Action)
    requires Inv(s) && Legal(s, a)
    ensures Inv(Next(s, a))
  {
    hide Inv, DoStart, DoSignal, DoExecute, DoSave, DoClose, DoHook, DoReleaseLoad, DoReleaseClose, DoDie, DoScan, DoPassLoad,
         DoPassSearch, DoPassClose, DoPassHook, DoPassDie, WellFormed, LeaseMeansDead, NoPassActive;
    match a
    case Start(id, chart, payload, e) => StartKeeps(s, id, chart, payload, e);
    case Signal(id, signal, data, e, delivery) => SignalKeeps(s, id, signal, data, e, delivery);
    case Execute(e, reply) => ExecuteKeeps(s, e, reply);
    case SaveStep(e) => SaveKeeps(s, e);
    case CloseStep(e) => CloseKeeps(s, e);
    case HookStep(e) => HookKeeps(s, e);
    case ReleaseLoad(e) => ReleaseLoadKeeps(s, e);
    case ReleaseClose(e) => ReleaseCloseKeeps(s, e);
    case Die(e) => DieKeeps(s, e);
    case Scan(r, before, order) => ScanKeeps(s, r, before, order);
    case PassLoad(r) => PassLoadKeeps(s, r);
    case PassSearch(r, at) => PassSearchKeeps(s, r, at);
    case PassClose(r) => PassCloseKeeps(s, r);
    case PassHook(r) => PassHookKeeps(s, r);
    case PassDie(r) => PassDieKeeps(s, r);
    case Tick(d) => TickKeeps(s, d);
  }

  /** Safety over whole runs: every state a legal run reaches satisfies the invariant. */
  lemma {:induction false} RunKeeps(acts: seq<Action>)
    requires LegalRun(Initial, acts)
    ensures Inv(Run(Initial, acts))
    decreases |acts|
  {
    hide Inv, Next, Legal;
    if acts == [] {
      InitialOK();
    } else {
      RunKeeps(acts[..|acts| - 1]);
      NextKeeps(Run(Initial, acts[..|acts| - 1]), acts[|acts| - 1]);
    }
  }

  lemma {:induction false} PrefixRuns(acts: seq<Action>, n: nat)
    requires LegalRun(Initial, acts) && n <= |acts|
    ensures LegalRun(Initial, acts[..n])
    decreases |acts|
  {
    hide Legal, Run;
    if n == |acts| {
      assert acts[..n] == acts;
    } else {
      PrefixRuns(acts[..|acts| - 1], n);
      assert acts[..|acts| - 1][..n] == acts[..n];
    }
  }
}
